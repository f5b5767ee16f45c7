/**
  The `stixlangwrap` language wrapper: it answers "in which language, and
  with what text, should field k of a STIX object be read", given an
  ordered list of preferred languages, the object's own `lang`, per-field
  language markings, and a stack of Language Content layers.

  The wrapper is a value; the operations that change it in the original
  (adding a layer, writing a translation) return the new wrapper, and a
  failed call returns an error and no new wrapper, so the caller's wrapper
  is left as it was.
 */
module LangWrap {
  import opened Stix

  /** The exceptions the wrapper raises, each with its Python class. */
  datatype Error =
    | WrongArgumentCount            // ValueError: not exactly one source for a layer
    | NoLanguageContent(ref: string) // ValueError: the bundle has no layer for this object
    | WrongType(kind: string)       // ValueError: the offered layer is not Language Content
    | NoTranslationObject           // ValueError: writing with no layer added
    | TextUnavailable(field: string) // AttributeError: no acceptable language for the field
    | NoSuchField(field: string)    // AttributeError: the base object lacks the field
  {
    predicate IsValueError() {
      WrongArgumentCount? || NoLanguageContent? || WrongType? || NoTranslationObject?
    }

    predicate IsAttributeError() {
      TextUnavailable? || NoSuchField?
    }
  }

  /**
    The wrapper state: preferred languages, most preferred first; the base
    object; the layers, most recently added first; and the `no_default`
    flag that forbids falling back to the base object's own text.
   */
  datatype Wrapper = Wrapper(
    langs: seq<string>,
    obj: BaseObject,
    layers: seq<LayerObject>,
    noDefault: bool)

  /** The `lang` argument of the constructor: one code, or a list of codes. */
  datatype LangArg = OneLang(code: string) | LangList(codes: seq<string>)

  /** Every layer on the stack is a Language Content object. */
  ghost predicate Valid(w: Wrapper) {
    forall i :: 0 <= i < |w.layers| ==> w.layers[i].kind == LanguageContentType
  }

  /** Builds a wrapper with no layers. The list is not required to be non-empty. */
  function New(lang: LangArg, obj: BaseObject, noDefault: bool): (w: Wrapper)
    ensures Valid(w) && w.layers == []
    ensures w.obj == obj && w.noDefault == noDefault
    ensures lang.OneLang? ==> w.langs == [lang.code]
    ensures lang.LangList? ==> w.langs == lang.codes
  {
    var langs := match lang
      case OneLang(code) => [code]
      case LangList(codes) => codes;
    Wrapper(langs, obj, [], noDefault)
  }

  /** The most recently added layer, if any was added. */
  function GetTranslationObject(w: Wrapper): (r: Option<LayerObject>)
    ensures r.None? <==> w.layers == []
    ensures r.Some? ==> r.value == w.layers[0] && r.value in w.layers
    ensures r.Some? && Valid(w) ==> r.value.kind == LanguageContentType
  {
    if |w.layers| == 0 then None else Some(w.layers[0])
  }

  // ---------------------------------------------------------------------
  // Adding a layer

  /** The three keyword arguments of `addtranslationobject`; `None` stands for an omitted one. */
  datatype AddRequest = AddRequest(
    transobj: Option<LayerObject>,
    ident: Option<Identity>,
    bundle: Option<seq<LayerObject>>)
  {
    /** How many of the three arguments were supplied. */
    function Supplied(): (n: nat)
      ensures n <= 3
      ensures n == 0 <==> transobj.None? && ident.None? && bundle.None?
      ensures n == 1 <==>
                || (transobj.Some? && ident.None? && bundle.None?)
                || (transobj.None? && ident.Some? && bundle.None?)
                || (transobj.None? && ident.None? && bundle.Some?)
    {
      (if transobj.Some? then 1 else 0) + (if ident.Some? then 1 else 0) + (if bundle.Some? then 1 else 0)
    }
  }

  /** A bundle member that is the Language Content object for the object with id `ref`. */
  predicate LayerFor(x: LayerObject, ref: string) {
    x.kind == LanguageContentType && x.objectRef == Some(ref)
  }

  /** `i` is the position of the first Language Content object for `ref` in `objects`. */
  ghost predicate FirstLayerForAt(objects: seq<LayerObject>, ref: string, i: int) {
    && 0 <= i < |objects|
    && LayerFor(objects[i], ref)
    && forall j :: 0 <= j < i ==> !LayerFor(objects[j], ref)
  }

  /** The first Language Content object in a bundle that refers to `ref`. */
  function FindInBundle(objects: seq<LayerObject>, ref: string): (r: Option<LayerObject>)
    ensures r.None? <==> forall i :: 0 <= i < |objects| ==> !LayerFor(objects[i], ref)
    ensures r.Some? ==> exists i :: FirstLayerForAt(objects, ref, i) && r.value == objects[i]
  {
    if |objects| == 0 then None
    else if LayerFor(objects[0], ref) then
      assert FirstLayerForAt(objects, ref, 0);
      Some(objects[0])
    else
      var r := FindInBundle(objects[1..], ref);
      assert forall i :: 1 <= i < |objects| ==> objects[i] == objects[1..][i - 1];
      assert forall i :: FirstLayerForAt(objects[1..], ref, i) ==> FirstLayerForAt(objects, ref, i + 1);
      r
  }

  /**
    The new, empty layer created for an identity: it refers to the base
    object's id and version, is created by the identity, and is seeded with
    a placeholder language whose translations are empty.
   */
  function NewLanguageContent(obj: BaseObject, ident: Identity): (x: LayerObject)
    ensures x.kind == LanguageContentType && LayerFor(x, obj.id)
    ensures x.objectModified == Some(obj.modified) && x.createdByRef == Some(ident.id)
    ensures x.contents.Keys == {"bogus"} && x.contents["bogus"] == map[]
  {
    LayerObject(LanguageContentType, Some(obj.id), Some(obj.modified), Some(ident.id), map["bogus" := map[]])
  }

  /**
    `addtranslationobject`: takes the layer from exactly one source (an
    object, a new layer created for an identity, or the first matching
    object of a bundle), checks that it is Language Content and pushes it
    on top of the stack.
   */
  function AddTranslationObject(w: Wrapper, req: AddRequest): (r: Result<Wrapper, Error>)
    ensures req.Supplied() != 1 ==> r == Err(WrongArgumentCount)
    ensures r.Err? ==> r.error.IsValueError()
    ensures r.Ok? ==> && r.value.langs == w.langs && r.value.obj == w.obj
                      && r.value.noDefault == w.noDefault
                      && |r.value.layers| == |w.layers| + 1
                      && r.value.layers[1..] == w.layers
                      && r.value.layers[0].kind == LanguageContentType
    ensures r.Ok? && Valid(w) ==> Valid(r.value)
    // a supplied object is layered exactly when it is Language Content
    ensures req.Supplied() == 1 && req.transobj.Some? ==>
              && (r.Ok? <==> req.transobj.value.kind == LanguageContentType)
              && (r.Ok? ==> r.value.layers[0] == req.transobj.value)
              && (r.Err? ==> r.error == WrongType(req.transobj.value.kind))
    // an identity always yields the new layer
    ensures req.Supplied() == 1 && req.ident.Some? ==>
              r.Ok? && r.value.layers[0] == NewLanguageContent(w.obj, req.ident.value)
    // a bundle yields its first Language Content object for the base object, or fails
    ensures req.Supplied() == 1 && req.bundle.Some? ==>
              && (r.Ok? <==> exists i :: 0 <= i < |req.bundle.value| && LayerFor(req.bundle.value[i], w.obj.id))
              && (r.Ok? ==> exists i :: FirstLayerForAt(req.bundle.value, w.obj.id, i)
                                        && r.value.layers[0] == req.bundle.value[i])
              && (r.Err? ==> r.error == NoLanguageContent(w.obj.id))
  {
    if req.Supplied() != 1 then Err(WrongArgumentCount)
    else
      var candidate :-
        if req.ident.Some? then Ok(NewLanguageContent(w.obj, req.ident.value))
        else if req.bundle.Some? then
          match FindInBundle(req.bundle.value, w.obj.id)
          case None => Err(NoLanguageContent(w.obj.id))
          case Some(x) => Ok(x)
        else Ok(req.transobj.value);
      if candidate.kind != LanguageContentType then Err(WrongType(candidate.kind))
      else Ok(w.(layers := [candidate] + w.layers))
  }

  // ---------------------------------------------------------------------
  // The advisory granular-marking lookup

  /** The marking says that field `k` is written in some language. */
  predicate Tags(m: Marking, k: string) {
    m.selectors.Some? && k in m.selectors.value && m.lang.Some?
  }

  /**
    `i` is the marking whose language the lookup reports for `k`: it tags
    `k`, and every marking before it is well formed and does not.
   */
  ghost predicate FirstTagAt(markings: seq<Marking>, k: string, i: int) {
    && 0 <= i < |markings|
    && Tags(markings[i], k)
    && forall j :: 0 <= j < i ==> markings[j].selectors.Some? && !Tags(markings[j], k)
  }

  /**
    `_getlangmarking`: the language of the first granular marking that
    selects `k` and carries a language. Markings without a language are
    skipped; a marking without selectors ends the lookup, and any failure
    or a miss is reported as `None`, never as an error.
   */
  function MarkLang(markings: seq<Marking>, k: string): (r: Option<string>)
    ensures r.Some? <==> exists i :: FirstTagAt(markings, k, i)
    ensures forall i :: FirstTagAt(markings, k, i) ==> r == markings[i].lang
  {
    if |markings| == 0 then None
    else
      match markings[0].selectors
      case None => None
      case Some(selectors) =>
        if k in selectors && markings[0].lang.Some? then
          assert FirstTagAt(markings, k, 0);
          markings[0].lang
        else
          var r := MarkLang(markings[1..], k);
          assert forall i :: 1 <= i < |markings| ==> markings[i] == markings[1..][i - 1];
          assert forall i :: FirstTagAt(markings[1..], k, i) ==> FirstTagAt(markings, k, i + 1);
          assert forall i :: FirstTagAt(markings, k, i) ==> FirstTagAt(markings[1..], k, i - 1);
          r
  }

  // ---------------------------------------------------------------------
  // Resolution

  /** Layer `x` translates field `k` into language `l`. */
  predicate Defines(x: LayerObject, l: string, k: string) {
    l in x.contents && k in x.contents[l]
  }

  ghost predicate SomeLayerDefines(layers: seq<LayerObject>, l: string, k: string) {
    exists i :: 0 <= i < |layers| && Defines(layers[i], l, k)
  }

  /** `i` is the most recently added layer that translates `k` into `l`. */
  ghost predicate FirstDefinerAt(layers: seq<LayerObject>, l: string, k: string, i: int) {
    && 0 <= i < |layers|
    && Defines(layers[i], l, k)
    && forall j :: 0 <= j < i ==> !Defines(layers[j], l, k)
  }

  /** The translation of `k` into `l` from the most recently added layer that has one. */
  function LayerText(layers: seq<LayerObject>, l: string, k: string): (r: Option<string>)
    ensures r.Some? <==> SomeLayerDefines(layers, l, k)
    ensures forall i :: FirstDefinerAt(layers, l, k, i) ==> r == Some(layers[i].contents[l][k])
  {
    if |layers| == 0 then None
    else if Defines(layers[0], l, k) then
      assert FirstDefinerAt(layers, l, k, 0);
      Some(layers[0].contents[l][k])
    else
      var r := LayerText(layers[1..], l, k);
      assert forall i :: 1 <= i < |layers| ==> layers[i] == layers[1..][i - 1];
      assert forall i :: FirstDefinerAt(layers, l, k, i) ==> FirstDefinerAt(layers[1..], l, k, i - 1);
      r
  }

  /**
    The base object itself answers for language `l`: the field's marking
    names `l`, or the field has no marking and the object's `lang` is `l`.
   */
  predicate BaseSpeaks(obj: BaseObject, mark: Option<string>, l: string) {
    mark == Some(l) || (mark.None? && obj.lang == Some(l))
  }

  /** Language `l` can be served for field `k`, by the base object or by a layer. */
  ghost predicate Offers(w: Wrapper, mark: Option<string>, l: string, k: string) {
    BaseSpeaks(w.obj, mark, l) || SomeLayerDefines(w.layers, l, k)
  }

  /** `prefs[i]` is the most preferred language that can be served. */
  ghost predicate FirstOfferedAt(prefs: seq<string>, w: Wrapper, mark: Option<string>, k: string, i: int) {
    && 0 <= i < |prefs|
    && Offers(w, mark, prefs[i], k)
    && forall j :: 0 <= j < i ==> !Offers(w, mark, prefs[j], k)
  }

  /** Where the winning text comes from: the base object, or a layer with its text. */
  datatype Hit = BaseHit(lang: string) | LayerHit(lang: string, text: string)

  /**
    The preference loop: for each language in order, the base object is
    consulted first (by marking, or by `lang` when there is no marking),
    then the layers, most recent first.
   */
  function Scan(prefs: seq<string>, w: Wrapper, mark: Option<string>, k: string): (r: Option<Hit>)
    ensures r.None? <==> forall i :: 0 <= i < |prefs| ==> !Offers(w, mark, prefs[i], k)
    ensures r.Some? ==> r.value.lang in prefs && Offers(w, mark, r.value.lang, k)
    ensures forall i :: FirstOfferedAt(prefs, w, mark, k, i) ==>
              && r.Some? && r.value.lang == prefs[i]
              && (r.value.BaseHit? <==> BaseSpeaks(w.obj, mark, prefs[i]))
              && (r.value.LayerHit? ==> LayerText(w.layers, prefs[i], k) == Some(r.value.text))
  {
    if |prefs| == 0 then None
    else
      var l := prefs[0];
      if BaseSpeaks(w.obj, mark, l) then
        assert FirstOfferedAt(prefs, w, mark, k, 0);
        Some(BaseHit(l))
      else
        match LayerText(w.layers, l, k)
        case Some(v) =>
          assert FirstOfferedAt(prefs, w, mark, k, 0);
          Some(LayerHit(l, v))
        case None =>
          var r := Scan(prefs[1..], w, mark, k);
          assert forall i :: 1 <= i < |prefs| ==> prefs[i] == prefs[1..][i - 1];
          assert forall i :: FirstOfferedAt(prefs, w, mark, k, i) ==> FirstOfferedAt(prefs[1..], w, mark, k, i - 1);
          r
  }

  /** `getattr(obj, k)` tagged with a language; fails when the object lacks the field. */
  function ReadField(obj: BaseObject, k: string, lang: Option<string>): (r: Result<(Option<string>, string), Error>)
    ensures r.Ok? <==> k in obj.fields
    ensures r.Ok? ==> r.value == (lang, obj.fields[k])
    ensures r.Err? ==> r.error == NoSuchField(k)
  {
    if k in obj.fields then Ok((lang, obj.fields[k])) else Err(NoSuchField(k))
  }

  /**
    `getlangtext`: the language and text of field `k`. The most preferred
    language that the base object or some layer can serve wins; the base
    object outranks the layers for that language, and the most recently
    added layer outranks older ones. If no preferred language is served,
    the call fails when `no_default` is set or the field carries a language
    marking, and otherwise returns the base text with the object's `lang`.
   */
  function GetLangText(w: Wrapper, k: string): (r: Result<(Option<string>, string), Error>)
    ensures r.Err? ==> r.error.IsAttributeError()
    ensures forall i :: FirstOfferedAt(w.langs, w, MarkLang(w.obj.markings, k), k, i) ==>
              if BaseSpeaks(w.obj, MarkLang(w.obj.markings, k), w.langs[i]) then
                r == ReadField(w.obj, k, Some(w.langs[i]))
              else
                r == Ok((Some(w.langs[i]), LayerText(w.layers, w.langs[i], k).value))
    ensures (forall i :: 0 <= i < |w.langs| ==> !Offers(w, MarkLang(w.obj.markings, k), w.langs[i], k)) ==>
              if w.noDefault || MarkLang(w.obj.markings, k).Some? then
                r == Err(TextUnavailable(k))
              else
                r == ReadField(w.obj, k, w.obj.lang)
  {
    var mark := MarkLang(w.obj.markings, k);
    match Scan(w.langs, w, mark, k)
    case Some(BaseHit(l)) => ReadField(w.obj, k, Some(l))
    case Some(LayerHit(l, v)) => Ok((Some(l), v))
    case None =>
      if w.noDefault || mark.Some? then Err(TextUnavailable(k))
      else ReadField(w.obj, k, w.obj.lang)
  }

  /** Attribute access on the wrapper: the text half of `getlangtext`, with its errors. */
  function GetAttr(w: Wrapper, k: string): (r: Result<string, Error>)
    ensures r.Ok? <==> GetLangText(w, k).Ok?
    ensures r.Ok? ==> r.value == GetLangText(w, k).value.1
    ensures r.Err? ==> r.error == GetLangText(w, k).error
  {
    var (_, text) :- GetLangText(w, k);
    Ok(text)
  }

  // ---------------------------------------------------------------------
  // Writing a translation

  /**
    `setlangtext`: records `v` as the translation of `k` into `lang` in the
    most recently added layer, creating the language's entry if needed.
    Nothing else changes; in particular no version marker is touched.
   */
  function SetLangText(w: Wrapper, k: string, lang: string, v: string): (r: Result<Wrapper, Error>)
    ensures r.Err? <==> w.layers == []
    ensures r.Err? ==> r.error == NoTranslationObject
    ensures r.Ok? ==> && r.value.langs == w.langs && r.value.obj == w.obj
                      && r.value.noDefault == w.noDefault
                      && |r.value.layers| == |w.layers|
                      && r.value.layers[1..] == w.layers[1..]
    ensures r.Ok? ==> var (before, after) := (w.layers[0], r.value.layers[0]);
                      && after == before.(contents := after.contents)
                      && after.contents.Keys == before.contents.Keys + {lang}
                      && after.contents[lang].Keys == (if lang in before.contents then before.contents[lang].Keys else {}) + {k}
                      && after.contents[lang][k] == v
                      && (forall f :: f in after.contents[lang] && f != k ==> after.contents[lang][f] == before.contents[lang][f])
                      && (forall l :: l in before.contents && l != lang ==> after.contents[l] == before.contents[l])
    ensures r.Ok? && Valid(w) ==> Valid(r.value)
  {
    if |w.layers| == 0 then Err(NoTranslationObject)
    else
      var top := w.layers[0];
      var bucket := if lang in top.contents then top.contents[lang] else map[];
      var top' := top.(contents := top.contents[lang := bucket[k := v]]);
      Ok(w.(layers := [top'] + w.layers[1..]))
  }
}
