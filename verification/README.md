# stixlangwrap, modelled in Dafny

This project models the `stixlangwrap` language wrapper of `stixi18n.py`.
The wrapper reads the fields of a STIX 2.1 object in a reader's preferred
languages. It holds:

- an ordered list of preferred language codes;
- the base object, with its common `lang` property (STIX 2.1 section 3.2)
  and its granular markings, which may give a field its own `lang`
  (STIX 2.1 section 7.2.3);
- a stack of Language Content objects (STIX 2.1 section 7.1), most recently
  added first;
- the `no_default` flag (strict mode).

The wrapper does four things:

- resolves the language and text of a field (`getlangtext`, and attribute
  access);
- adds a layer from an object, from an identity or from a bundle;
- returns the current layer;
- writes a translation into the current layer.

The wrapper is modelled as an immutable value. Adding a layer and writing a
translation return the new wrapper, or an error. A failed call returns no
new wrapper, so the caller's layer stack stays as it was. That is the
original's "nothing changes on failure". Python exceptions become `Err`
values: `Error.IsValueError` covers the `ValueError` cases and
`Error.IsAttributeError` the `AttributeError` cases.

Files:

- `stix.dfy` (module `Stix`): the object model, `Option` and `Result`.
- `langwrap.dfy` (module `LangWrap`): the wrapper and its operations.
- `properties.dfy` (module `LangWrapProperties`): lemmas relating several
  calls.
- `scenarios.dfy` (module `Scenarios`): the unit tests' expected outcomes,
  restated as lemmas.

Choices where the code is more specific than its documentation (the model
follows the code):

- The preference list may be empty. The constructor does not check it. With
  an empty list the preference loop is skipped and resolution goes straight
  to the fallback.
- The strict-mode test `no_default or marklang is not None` is applied
  whenever no preferred language was served, whether or not layers exist.
- A bundle yields its first matching Language Content object. Further
  matches are ignored.
- A layer created for an identity is seeded with the placeholder language
  `bogus`, whose translations are empty. It is not left empty.
- The fallback returns the pair (object `lang` or none, base text).

## Model

| member | source | states |
|---|---|---|
| LangWrap.New | stixi18n.py:51-67 | The preference list is the single code given, or the list as given, in order and possibly empty. The base object and strict flag are stored. The wrapper starts with no layers, so it trivially satisfies the Language-Content-only stack invariant. |
| LangWrap.GetTranslationObject | stixi18n.py:77-81 | Returns nothing exactly when no layer was added. Otherwise returns the most recently added layer, which is Language Content whenever the stack invariant holds. |
| LangWrap.AddRequest.Supplied | stixi18n.py:96 | Counts the supplied sources; it is 1 exactly when one of the three is given, and 0 exactly when none is. |
| LangWrap.FindInBundle | stixi18n.py:106-111 | Finds nothing exactly when no bundle member is Language Content referring to the base object's id. Otherwise returns the first such member. |
| LangWrap.NewLanguageContent | stixi18n.py:100-104 | The layer made for an identity is Language Content. It refers to the base object's id and version, is created by the identity, and its contents are exactly `{'bogus': {}}`. |
| LangWrap.AddTranslationObject | stixi18n.py:83-122 | Fails with WrongArgumentCount unless exactly one source is supplied. Every failure is a ValueError. On success the stack grows by exactly the new layer at the front, the old layers stay behind it, and nothing else changes. A supplied object is accepted iff its type is Language Content, else WrongType. An identity always yields the new layer. A bundle succeeds iff it holds a matching object and yields the first one, else NoLanguageContent(object id). The Language-Content-only invariant is preserved. |
| LangWrap.MarkLang | stixi18n.py:127-140 | Returns the language of the first marking that selects the field and carries a language. Markings without a language are skipped. A marking without selectors before any match ends the lookup with "absent". No match is "absent", never an error. |
| LangWrap.LayerText | stixi18n.py:166-169 | Returns a text iff some layer translates the field into the language. The text comes from the most recently added such layer. |
| LangWrap.Scan | stixi18n.py:156-169 | Finds nothing iff no preferred language is served by the base object or a layer. Otherwise it picks the earliest served language. The base object is chosen exactly when it speaks that language. A layer hit carries the newest layer's text. |
| LangWrap.ReadField | stixi18n.py:159-164 | Reading the base object's field succeeds iff the object has it, with the given language tag. Otherwise it fails with NoSuchField, an AttributeError. |
| LangWrap.GetLangText | stixi18n.py:142-178 | Errors are AttributeErrors. When some preferred language is served, the earliest one wins. The base object wins if it speaks that language, through the field's marking, or through its `lang` when the field has no marking. Otherwise the newest layer's text wins, tagged with that language. When none is served, the call fails with TextUnavailable iff strict mode is on or the field has a language marking. Otherwise it returns the object's `lang` (or none) with the base text. |
| LangWrap.GetAttr | stixi18n.py:124-125 | Attribute access succeeds exactly when `getlangtext` does. It returns the text half or the same error. |
| LangWrap.SetLangText | stixi18n.py:180-191 | Fails with NoTranslationObject iff no layer was added. Otherwise only the top layer's contents change: the language bucket is created if absent and maps the field to the value. Other fields of that bucket and other languages are kept. Other layers, the base object, the preferences and the flag are unchanged. The invariant is preserved. |
| LangWrapProperties.ScanSeesOnlyLayerText | stixi18n.py:156-169 | Two wrappers over the same base object make the same choice when their layers give the same text for the field in every preferred language. |
| LangWrapProperties.SameLayerTextSameReading | stixi18n.py:142-178 | `getlangtext` depends on the layers only through the per-language text they give for the field. |
| LangWrapProperties.LayerWithoutFieldIsTransparent | stixi18n.py:166-169 | Adding, by any of the three routes, a layer that does not translate the field into any preferred language leaves the field's reading unchanged. A layer lacking the field shadows nothing. |
| LangWrapProperties.NewestLayerWins | stixi18n.py:156-169 | Suppose the base object does not speak the first preferred language. Then a newly added layer that translates the field into that language wins over all earlier layers and the fallback. |
| LangWrapProperties.BaseOutranksLayers | stixi18n.py:159-164 | When the base object speaks the first preferred language, the answer is the base text in that language, whatever the layers are. |
| LangWrapProperties.ReportedLanguage | stixi18n.py:156-178 | A successful read reports either a preferred language, or the object's own `lang` (or none). The second case only happens in lenient mode, for an unmarked field, and with a language outside the preferences. |
| LangWrapProperties.StrictOnlyRemovesFallback | stixi18n.py:171-178 | Strict mode never changes a successful answer. When it turns a lenient success into an error, that error is TextUnavailable and no preferred language was served. |
| LangWrapProperties.SetThenGet | stixi18n.py:180-191 | After a layer exists, write a translation into the first preferred language that the base object does not speak itself. The next read of that field returns exactly (that language, the value). The current layer holds the value. |
| LangWrapProperties.SetLeavesOtherFields | stixi18n.py:188-191 | Writing a translation of one field does not change the reading of any other field. |
| LangWrapProperties.AddedLayerIsCurrent | stixi18n.py:117-122 | A supplied object is accepted iff it is Language Content. Once accepted, it is what `gettranslationobject` returns. |
| Scenarios.ReadingScenario | stixi18n.py:198-230 | An English reader gets ('en', description). With Thai preferred and a Thai description layer, the description reads in Thai and the name falls back to ('en', name). |
| Scenarios.FallbackScenario | stixi18n.py:232-246 | A Thai reader of an English campaign gets the English text in lenient mode, and TextUnavailable in strict mode. |
| Scenarios.TwoLayersScenario | stixi18n.py:248-270 | Two Thai layers for different fields are both consulted. |
| Scenarios.NoLangScenario | stixi18n.py:272-281 | An object without `lang` is read as (none, text). |
| Scenarios.FailuresScenario | stixi18n.py:283-292 | A campaign offered as a layer gives WrongType. No source, or two sources, gives WrongArgumentCount. |
| Scenarios.WritingScenario | stixi18n.py:294-327 | Writing before any layer gives NoTranslationObject. The identity's layer is Language Content created by it. The English text is read until a Thai translation is written, which is then read back. |
| Scenarios.NotFoundBundleScenario | stixi18n.py:346-356 | A bundle whose only object for the campaign is not Language Content gives NoLanguageContent. |
| Scenarios.GranularMarkingScenario | stixi18n.py:358-368 | A description marked German fails for an English reader even in lenient mode. With German preferred it reads as ('de', text). |
| Scenarios.GranularNoLangScenario | stixi18n.py:379-385 | A marking that carries no language leaves the object's `lang` in charge. |

## Left out

- The STIX library is not modelled: object construction, ids and
  timestamps, JSON parsing, the `Bundle` class, and the registration of the
  custom `x-bogus-lc` type. Objects are plain values, and a bundle is a
  sequence of objects.
- LangWrap.AddTranslationObject: its "every failure is a ValueError" covers
  only bundles given as sequences. In the original, reading
  `bundle.objects` (stixi18n.py:108) sits outside the `except IndexError`,
  so an error the STIX library raises for a bundle without objects would
  reach the caller unchanged rather than as the ValueError. The model
  treats an empty sequence as a bundle with no match.
- `recast` is left out. It only raises NotImplementedError.
- Attribute access relies on Python's dynamic `__getattr__`. It is modelled
  as the explicit `GetAttr`. Names that the wrapper itself defines never
  reach the dispatch in Python, and the model does not model that.
- The constructor's string-versus-list test is modelled as the `LangArg`
  choice. Only its effect, a sequence of codes, is kept.
- Layers are values. In Python, `setlangtext` mutates the shared layer
  object. That mutation is also seen by the caller who supplied the object,
  and by any second stack entry holding the same object. Reads through the
  wrapper are the same either way, because the top entry wins.
- The base object's `id`, `modified` and `lang` are separate components.
  Reading those three names as fields through the wrapper is not modelled.
- Marking lookup faults are typed out of existence except one: a marking
  without `selectors`. Other faults, such as `granular_markings` not being a
  list, cannot arise in the model.
- The `x is not None` test in the layer loop is left out. Layers are never
  absent.
- The layer's own `modified` is not modelled. The base object's `modified`
  is carried only so that a new layer can refer to it (`objectModified`).
  No operation changes either; see the frame of `LangWrap.SetLangText`.
- The unit-test harness and its JSON fixtures are not modelled. The objects
  from `test_granlang.json` and `test_grannolang.json` are reconstructed from
  the tests' expectations. `test_import` repeats the Thai-layer reading
  covered by `Scenarios.ReadingScenario`. The skipped `test_ctigranularmarkings`
  is left out.
- `test_usecase2.py` is left out. It loads a JSON fixture and prints two
  results, and has no logic of its own.
