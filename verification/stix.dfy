/**
  The slice of the STIX 2.1 object model that the language wrapper reads:
  the base object whose fields are localised (its `id`, `modified`, the
  common `lang` property of STIX 2.1 section 3.2 and the granular
  markings of STIX 2.1 section 7.2.3), and the objects it may layer over
  it, of which only the Language Content objects of STIX 2.1 section 7.1
  are accepted.
 */
module Stix {

  datatype Option<+T> = None | Some(value: T)

  /** Success or failure; a failure stands for an exception raised to the caller. */
  datatype Result<+T, +E> = Ok(value: T) | Err(error: E) {
    predicate IsFailure() {
      Err?
    }

    function PropagateFailure<U>(): Result<U, E>
      requires Err?
    {
      Err(error)
    }

    function Extract(): T
      requires Ok?
    {
      value
    }
  }

  /** The `type` of a Language Content object (STIX 2.1 section 7.1). */
  const LanguageContentType: string := "language-content"

  /**
    A granular marking as the wrapper reads it. `selectors` is `None` when
    the marking lacks its `selectors` property (a structural fault), and
    `lang` is `None` for a marking that refers to a marking definition
    instead of carrying a language.
   */
  datatype Marking = Marking(selectors: Option<seq<string>>, lang: Option<string>)

  /**
    The object being localised. `fields` holds its other properties by
    name; `markings` is its `granular_markings` list, empty when absent.
   */
  datatype BaseObject = BaseObject(
    id: string,
    modified: string,
    lang: Option<string>,
    fields: map<string, string>,
    markings: seq<Marking>)

  /** Language code to (field name to translated text), as in a Language Content object. */
  type Contents = map<string, map<string, string>>

  /**
    An object offered as a translation layer. `kind` is its STIX `type`;
    only objects of kind `LanguageContentType` are ever layered. The
    optional properties are `None` when the object does not carry them.
   */
  datatype LayerObject = LayerObject(
    kind: string,
    objectRef: Option<string>,
    objectModified: Option<string>,
    createdByRef: Option<string>,
    contents: Contents)

  /** An Identity object; only its id is used, as the creator of a new layer. */
  datatype Identity = Identity(id: string)
}
