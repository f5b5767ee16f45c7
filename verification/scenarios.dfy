/**
  The expected outcomes of the repository's unit tests, restated over the
  model. Objects built by the STIX library in the tests are written out as
  values; the JSON fixtures of the granular-marking tests are not part of
  this model, so their objects are reconstructed from what the tests
  expect of them.
 */
module Scenarios {
  import opened Stix
  import opened LangWrap

  const Desc: string := "This is a basic description of a campaign."
  const Name: string := "A Campaign"
  const ThaiDesc: string := "A description in Thai."
  const ThaiName: string := "A name in Thai."
  const Tester: Identity := Identity("identity--tester")

  function Campaign(lang: Option<string>): BaseObject {
    BaseObject("campaign--one", "2018-01-01T00:00:00.000Z", lang,
               map["name" := Name, "description" := Desc], [])
  }

  /** A Language Content object for the campaign with the given translations. */
  function Translation(contents: Contents): LayerObject {
    LayerObject(LanguageContentType, Some("campaign--one"), Some("2018-01-01T00:00:00.000Z"),
                Some(Tester.id), contents)
  }

  /** Reading with the object's own language, then with Thai layered over English. */
  lemma ReadingScenario()
    ensures var w := New(OneLang("en"), Campaign(Some("en")), false);
            && GetAttr(w, "description") == Ok(Desc)
            && GetLangText(w, "description") == Ok((Some("en"), Desc))
    ensures var w := New(LangList(["th", "en"]), Campaign(Some("en")), false);
            var r := AddTranslationObject(w, AddRequest(Some(Translation(map["th" := map["description" := ThaiDesc]])), None, None));
            && r.Ok?
            && GetAttr(r.value, "description") == Ok(ThaiDesc)
            && GetLangText(r.value, "description") == Ok((Some("th"), ThaiDesc))
            && GetLangText(r.value, "name") == Ok((Some("en"), Name))
  {
  }

  /** A Thai reader of an English campaign gets the English text, or an error in strict mode. */
  lemma FallbackScenario()
    ensures var w := New(OneLang("th"), Campaign(Some("en")), false);
            && GetAttr(w, "description") == Ok(Desc)
            && GetLangText(w, "description") == Ok((Some("en"), Desc))
    ensures var w := New(OneLang("th"), Campaign(Some("en")), true);
            && GetAttr(w, "description") == Err(TextUnavailable("description"))
            && GetLangText(w, "description") == Err(TextUnavailable("description"))
  {
  }

  /** Two layers for different fields are both consulted. */
  lemma TwoLayersScenario()
    ensures var w0 := New(LangList(["th", "en"]), Campaign(Some("en")), false);
            var r1 := AddTranslationObject(w0, AddRequest(Some(Translation(map["th" := map["description" := ThaiDesc]])), None, None));
            var r2 := AddTranslationObject(r1.value, AddRequest(Some(Translation(map["th" := map["name" := ThaiName]])), None, None));
            && r2.Ok?
            && GetLangText(r2.value, "description") == Ok((Some("th"), ThaiDesc))
            && GetLangText(r2.value, "name") == Ok((Some("th"), ThaiName))
  {
  }

  /** An object without `lang` is reported in no language. */
  lemma NoLangScenario()
    ensures GetLangText(New(OneLang("th"), Campaign(None), false), "description") == Ok((None, Desc))
  {
  }

  /** Rejected layer arguments: the wrong type, none at all, and two at once. */
  lemma FailuresScenario()
    ensures var w := New(OneLang("en"), Campaign(Some("en")), false);
            var camp := LayerObject("campaign", None, None, Some(Tester.id), map[]);
            && AddTranslationObject(w, AddRequest(Some(camp), None, None)) == Err(WrongType("campaign"))
            && AddTranslationObject(w, AddRequest(None, None, None)) == Err(WrongArgumentCount)
            && AddTranslationObject(w, AddRequest(Some(camp), Some(Tester), None)) == Err(WrongArgumentCount)
  {
  }

  /** Writing needs a layer; a new layer for an identity then takes the written Thai text. */
  lemma WritingScenario()
    ensures var w0 := New(LangList(["th", "en"]), Campaign(Some("en")), false);
            && SetLangText(w0, "description", "th", "foo") == Err(NoTranslationObject)
            && var w1 := AddTranslationObject(w0, AddRequest(None, Some(Tester), None)).value;
               && GetTranslationObject(w1).Some?
               && GetTranslationObject(w1).value.kind == LanguageContentType
               && GetTranslationObject(w1).value.createdByRef == Some(Tester.id)
               && GetLangText(w1, "description") == Ok((Some("en"), Desc))
               && var w2 := SetLangText(w1, "description", "th", ThaiDesc).value;
                  && GetLangText(w2, "description") == Ok((Some("th"), ThaiDesc))
                  && GetTranslationObject(w2).value.contents["th"]["description"] == ThaiDesc
  {
  }

  /** A bundle whose only object for the campaign is not Language Content yields no layer. */
  lemma NotFoundBundleScenario()
    ensures var w := New(OneLang("en"), Campaign(Some("en")), false);
            var camp := LayerObject("campaign", None, None, Some(Tester.id), map[]);
            var bogus := LayerObject("x-bogus-lc", Some("campaign--one"), None, None, map[]);
            AddTranslationObject(w, AddRequest(None, None, Some([camp, bogus]))) == Err(NoLanguageContent("campaign--one"))
  {
  }

  const GermanDesc: string := "Weitere Informationen über Banküberfall"

  /** A campaign in English whose description is marked as German. */
  function MarkedCampaign(markings: seq<Marking>): BaseObject {
    BaseObject("campaign--two", "2018-01-01T00:00:00.000Z", Some("en"),
               map["name" := "Bank Robbery", "description" := GermanDesc], markings)
  }

  /** A field marked with a language outside the preferences fails even in lenient mode. */
  lemma GranularMarkingScenario()
    ensures var obj := MarkedCampaign([Marking(Some(["description"]), Some("de"))]);
            && GetLangText(New(OneLang("en"), obj, false), "description") == Err(TextUnavailable("description"))
            && GetLangText(New(LangList(["de", "en"]), obj, false), "description") == Ok((Some("de"), GermanDesc))
  {
  }

  /** A marking that carries no language leaves the object's `lang` in charge. */
  lemma GranularNoLangScenario()
    ensures var obj := MarkedCampaign([Marking(Some(["description"]), None)]);
            GetLangText(New(OneLang("en"), obj, false), "description") == Ok((Some("en"), GermanDesc))
  {
  }
}
