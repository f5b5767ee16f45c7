/**
  Properties that relate several calls on the language wrapper: how layers
  and the base object take precedence over one another, what adding a
  layer or writing a translation does to later reads, and what strict mode
  changes.
 */
module LangWrapProperties {
  import opened Stix
  import opened LangWrap

  /**
    The preference loop sees the layers only through `LayerText`: two
    wrappers over the same base object whose layers give the same text for
    `k` in every language still to try make the same choice.
   */
  lemma {:induction false} ScanSeesOnlyLayerText(prefs: seq<string>, w: Wrapper, w': Wrapper, mark: Option<string>, k: string)
    requires w'.obj == w.obj
    requires forall l :: l in prefs ==> LayerText(w'.layers, l, k) == LayerText(w.layers, l, k)
    ensures Scan(prefs, w', mark, k) == Scan(prefs, w, mark, k)
  {
    if |prefs| > 0 {
      assert prefs[0] in prefs;
      assert forall l :: l in prefs[1..] ==> l in prefs;
      ScanSeesOnlyLayerText(prefs[1..], w, w', mark, k);
    }
  }

  /** Reading `k` depends on the layers only through their text for `k` in the preferred languages. */
  lemma SameLayerTextSameReading(w: Wrapper, w': Wrapper, k: string)
    requires w'.langs == w.langs && w'.obj == w.obj && w'.noDefault == w.noDefault
    requires forall l :: l in w.langs ==> LayerText(w'.layers, l, k) == LayerText(w.layers, l, k)
    ensures GetLangText(w', k) == GetLangText(w, k)
  {
    ScanSeesOnlyLayerText(w.langs, w, w', MarkLang(w.obj.markings, k), k);
  }

  /**
    Adding a layer that does not translate `k` into any preferred language
    leaves the reading of `k` as it was: such a layer shadows nothing.
   */
  lemma LayerWithoutFieldIsTransparent(w: Wrapper, req: AddRequest, k: string)
    requires AddTranslationObject(w, req).Ok?
    requires forall l :: l in w.langs ==> !Defines(AddTranslationObject(w, req).value.layers[0], l, k)
    ensures GetLangText(AddTranslationObject(w, req).value, k) == GetLangText(w, k)
  {
    var w' := AddTranslationObject(w, req).value;
    assert w'.layers == [w'.layers[0]] + w.layers;
    forall l | l in w.langs
      ensures LayerText(w'.layers, l, k) == LayerText(w.layers, l, k)
    {
      assert w'.layers[1..] == w.layers;
    }
    SameLayerTextSameReading(w, w', k);
  }

  /**
    When the base object does not answer for the most preferred language,
    a newly added layer that translates `k` into it wins over everything
    added before.
   */
  lemma NewestLayerWins(w: Wrapper, req: AddRequest, k: string)
    requires AddTranslationObject(w, req).Ok?
    requires |w.langs| > 0 && !BaseSpeaks(w.obj, MarkLang(w.obj.markings, k), w.langs[0])
    requires Defines(AddTranslationObject(w, req).value.layers[0], w.langs[0], k)
    ensures GetLangText(AddTranslationObject(w, req).value, k)
            == Ok((Some(w.langs[0]), AddTranslationObject(w, req).value.layers[0].contents[w.langs[0]][k]))
  {
  }

  /**
    When the base object answers for the most preferred language (by the
    field's marking, or by its `lang` when the field has no marking), no
    set of layers changes the answer.
   */
  lemma BaseOutranksLayers(w: Wrapper, layers: seq<LayerObject>, k: string)
    requires |w.langs| > 0 && BaseSpeaks(w.obj, MarkLang(w.obj.markings, k), w.langs[0])
    ensures GetLangText(w.(layers := layers), k) == ReadField(w.obj, k, Some(w.langs[0]))
  {
  }

  /**
    A reported language outside the preference list can only be the base
    object's own `lang` (or none), returned by the lenient fallback for a
    field without a language marking.
   */
  lemma ReportedLanguage(w: Wrapper, k: string)
    ensures GetLangText(w, k).Ok? ==>
              var (lang, _) := GetLangText(w, k).value;
              || (lang.Some? && lang.value in w.langs)
              || (&& lang == w.obj.lang && !w.noDefault
                  && MarkLang(w.obj.markings, k).None?
                  && (lang.Some? ==> lang.value !in w.langs))
  {
  }

  /**
    Strict mode never changes a successful answer: it only turns the
    fallback to the base object's own text into an error.
   */
  lemma StrictOnlyRemovesFallback(w: Wrapper, k: string)
    ensures GetLangText(w.(noDefault := true), k).Ok? ==>
              GetLangText(w.(noDefault := true), k) == GetLangText(w.(noDefault := false), k)
    ensures GetLangText(w.(noDefault := false), k).Ok? && GetLangText(w.(noDefault := true), k).Err? ==>
              && GetLangText(w.(noDefault := true), k).error == TextUnavailable(k)
              && forall l :: l in w.langs ==> !Offers(w, MarkLang(w.obj.markings, k), l, k)
  {
    var mark := MarkLang(w.obj.markings, k);
    var strict, lenient := w.(noDefault := true), w.(noDefault := false);
    ScanSeesOnlyLayerText(w.langs, lenient, strict, mark, k);
    ScanSeesOnlyLayerText(w.langs, w, strict, mark, k);
  }

  /**
    After a translation of `k` into the most preferred language is written,
    reading `k` returns it, unless the base object answers for that
    language itself; the current layer holds it too.
   */
  lemma SetThenGet(w: Wrapper, k: string, lang: string, v: string)
    requires w.layers != []
    requires |w.langs| > 0 && w.langs[0] == lang
    requires !BaseSpeaks(w.obj, MarkLang(w.obj.markings, k), lang)
    ensures SetLangText(w, k, lang, v).Ok?
    ensures GetLangText(SetLangText(w, k, lang, v).value, k) == Ok((Some(lang), v))
    ensures GetTranslationObject(SetLangText(w, k, lang, v).value).value.contents[lang][k] == v
  {
  }

  /** Writing a translation of `k` does not change how any other field reads. */
  lemma SetLeavesOtherFields(w: Wrapper, k: string, lang: string, v: string, other: string)
    requires w.layers != [] && other != k
    ensures GetLangText(SetLangText(w, k, lang, v).value, other) == GetLangText(w, other)
  {
    var w' := SetLangText(w, k, lang, v).value;
    forall l | l in w.langs
      ensures LayerText(w'.layers, l, other) == LayerText(w.layers, l, other)
    {
      assert Defines(w'.layers[0], l, other) <==> Defines(w.layers[0], l, other);
      assert w'.layers[1..] == w.layers[1..];
    }
    SameLayerTextSameReading(w, w', other);
  }

  /** A layer that was accepted is what `gettranslationobject` returns next. */
  lemma AddedLayerIsCurrent(w: Wrapper, x: LayerObject)
    ensures AddTranslationObject(w, AddRequest(Some(x), None, None)).Ok? <==> x.kind == LanguageContentType
    ensures x.kind == LanguageContentType ==>
              GetTranslationObject(AddTranslationObject(w, AddRequest(Some(x), None, None)).value) == Some(x)
  {
  }
}
