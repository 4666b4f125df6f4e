/**
 * The demo application's `Character` model (src/app/models/character.class.ts): a
 * concrete user model that supplies a field-name resolver and a rich-text resolver.
 */
module CharacterModel {
  import opened Wrappers
  import opened JsonValues
  import opened FieldTypes

  /** A text field, the declared type of `name`. */
  type TextFieldValue = f: Field | f.TextField? witness TextField("", JUndefined, JUndefined)

  /** A number field, the declared type of `someNumber`. */
  type NumberFieldValue = f: Field | f.NumberField? witness NumberField("", JUndefined, JUndefined)

  /** A date-time field, the declared type of `someDateTime`. */
  type DateTimeFieldValue = f: Field | f.DateTimeField? witness DateTimeField("", JUndefined, DateOf(JUndefined))

  /** A character: the content item's system block and its four declared properties. */
  datatype Character = Character(
    system: ContentItemSystem,
    name: TextFieldValue,
    someNumber: NumberFieldValue,
    someDateTime: DateTimeFieldValue,
    someRichText: RichTextField)

  /**
   * The field-name resolver: three raw element names map to camel-cased properties;
   * every other name, matched exactly, resolves to `undefined`.
   */
  function ResolveFieldName(fieldName: string): (property: Option<string>)
    ensures property == Some("someNumber") <==> fieldName == "somenumber"
    ensures property == Some("someDateTime") <==> fieldName == "somedate"
    ensures property == Some("someRichText") <==> fieldName == "somerichtext"
    ensures property.None? <==> fieldName != "somenumber" && fieldName != "somedate" && fieldName != "somerichtext"
  {
    if fieldName == "somenumber" then Some("someNumber")
    else if fieldName == "somedate" then Some("someDateTime")
    else if fieldName == "somerichtext" then Some("someRichText")
    else None
  }

  /** Matching is exact: a property name the resolver produces is not itself resolved. */
  lemma ResolvedNamesAreNotResolvedAgain(fieldName: string)
    requires ResolveFieldName(fieldName).Some?
    ensures ResolveFieldName(ResolveFieldName(fieldName).value).None?
  {
  }

  /** The rich-text resolver: the character's name inside an `h3` element. */
  function RichTextResolver(item: Character): (html: string)
    ensures |html| == |Stringify(item.name.text)| + 9
    ensures html[..4] == "<h3>" && html[|html| - 5..] == "</h3>"
    ensures html[4..|html| - 5] == Stringify(item.name.text)
    ensures item.name.text.JString? ==> html[4..|html| - 5] == item.name.text.s
  {
    "<h3>" + Stringify(item.name.text) + "</h3>"
  }
}
