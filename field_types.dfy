/**
 * The field value objects of lib/fields/field-types.ts. Each one normalises the raw
 * JSON value of one element of a content item. The immutable ones form the tagged
 * union `Field`; the rich-text field, which memoises its resolved HTML, is the class
 * `RichTextField`. Console output becomes a returned list of diagnostic lines.
 */
module FieldTypes {
  import opened Wrappers
  import opened JsonValues
  import opened FieldModels

  /** The field type tags, spelled as the source's `FieldType` enum members. */
  datatype FieldType = text | multiple_choice | datetime | rich_text | number | asset | url_slug

  /** The `system` block of a content item, as far as the fields read it. */
  datatype ContentItemSystem = ContentItemSystem(codename: string, itemType: string)

  /** A content item as the resolvers receive it: its system block and its raw elements. */
  datatype ContentItem = ContentItem(system: ContentItemSystem, elements: Json)

  /** `new Date(value)`, kept opaque: the raw value it was built from. */
  datatype DateValue = DateOf(raw: Json)

  /** The callback `(contentItem, urlSlug) => string` that turns a slug into a url. */
  type UrlSlugResolver = (ContentItem, Json) -> Json

  /** A rich-text resolver supplied by the query: `(item) => string`. */
  type ItemResolver = ContentItem -> string

  /**
   * `new RichTextResolver(html, modularItems, enableAdvancedLogging, queryResolver).resolveHtml()`.
   * The resolver class is not part of this model; it is taken as an opaque function.
   */
  type HtmlResolver = (Json, seq<ContentItem>, bool, Option<ItemResolver>) -> string

  /** One immutable field value object of a content item; rich text is the class `RichTextField`. */
  datatype Field =
    | TextField(name: string, value: Json, text: Json)
    | MultipleChoiceField(name: string, value: Json, options: seq<MultipleChoiceOption>)
    | DateTimeField(name: string, value: Json, datetime: DateValue)
    | NumberField(name: string, value: Json, number: Json)
    | AssetsField(name: string, value: Json, assets: seq<AssetModel>)
    | UrlSlugField(name: string, value: Json, contentItem: ContentItem, url: Json)
  {
    /** The `type` member each field class initialises at construction. */
    function Type(): FieldType {
      match this
      case TextField(_, _, _) => FieldType.text
      case MultipleChoiceField(_, _, _) => FieldType.multiple_choice
      case DateTimeField(_, _, _) => FieldType.datetime
      case NumberField(_, _, _) => FieldType.number
      case AssetsField(_, _, _) => FieldType.asset
      case UrlSlugField(_, _, _, _) => FieldType.url_slug
    }
  }

  /** `new TextField(name, value)`: the text is the raw value, unchanged. */
  function NewTextField(name: string, value: Json): (f: Field)
    ensures f.TextField? && f.Type() == FieldType.text
    ensures f.name == name && f.value == value && f.text == value
  {
    TextField(name, value, value)
  }

  /** `new NumberField(name, value)`: the number is the raw value, unchanged. */
  function NewNumberField(name: string, value: Json): (f: Field)
    ensures f.NumberField? && f.Type() == FieldType.number
    ensures f.name == name && f.value == value && f.number == value
  {
    NumberField(name, value, value)
  }

  /** `new DateTimeField(name, value)`: an opaque date made from the raw value. */
  function NewDateTimeField(name: string, value: Json): (f: Field)
    ensures f.DateTimeField? && f.Type() == FieldType.datetime
    ensures f.name == name && f.value == value && f.datetime.raw == value
  {
    DateTimeField(name, value, DateOf(value))
  }

  /** The option made from one element of a multiple-choice value (`option.name`, `option.codename`). */
  function OptionFromRaw(raw: Json): MultipleChoiceOption
    requires !Nullish(raw)
  {
    NewMultipleChoiceOption(Member(raw, "name"), Member(raw, "codename"))
  }

  /** The asset made from one element of an asset value, its five attributes read in order. */
  function AssetFromRaw(raw: Json): AssetModel
    requires !Nullish(raw)
  {
    NewAssetModel(Member(raw, "name"), Member(raw, "type"), Member(raw, "size"),
                  Member(raw, "description"), Member(raw, "url"))
  }

  /** Some element of an array value is `undefined` or `null`, so reading its first attribute throws. */
  predicate HasNullishElement(value: Json) {
    value.JArray? && exists i :: 0 <= i < |value.elems| && Nullish(value.elems[i])
  }

  /**
   * `new MultipleChoiceField(name, value)`. A value that is falsy or not an array
   * gives no options; an array gives one option per element, in order. The
   * constructor throws when an element is `undefined` or `null`.
   */
  method NewMultipleChoiceField(name: string, value: Json) returns (r: Result<Field, PropertyError>)
    ensures r.Failure? <==> HasNullishElement(value)
    ensures r.Failure? ==> r.error == CannotReadProperty("name")
    ensures r.Success? ==> r.value.MultipleChoiceField? && r.value.Type() == FieldType.multiple_choice
    ensures r.Success? ==> r.value.name == name && r.value.value == value
    ensures !value.JArray? ==> r.Success? && r.value.options == []
    ensures r.Success? && value.JArray? ==>
      |r.value.options| == |value.elems| &&
      forall i :: 0 <= i < |value.elems| ==> r.value.options[i] == OptionFromRaw(value.elems[i])
  {
    var options: seq<MultipleChoiceOption> := [];
    if Truthy(value) {
      if value.JArray? {
        var i := 0;
        while i < |value.elems|
          invariant 0 <= i <= |value.elems|
          invariant |options| == i
          invariant forall k :: 0 <= k < i ==> !Nullish(value.elems[k]) && options[k] == OptionFromRaw(value.elems[k])
        {
          var option := value.elems[i];
          var optionName := ReadProperty(option, "name");
          if optionName.Failure? {
            return Failure(optionName.error);
          }
          options := options + [NewMultipleChoiceOption(optionName.value, Member(option, "codename"))];
          i := i + 1;
        }
      }
    }
    r := Success(MultipleChoiceField(name, value, options));
  }

  /**
   * `new AssetsField(name, value)`. A value that is falsy or not an array gives no
   * assets; an array gives one asset per element, in order, with all five attributes
   * copied. The constructor throws when an element is `undefined` or `null`.
   */
  method NewAssetsField(name: string, value: Json) returns (r: Result<Field, PropertyError>)
    ensures r.Failure? <==> HasNullishElement(value)
    ensures r.Failure? ==> r.error == CannotReadProperty("name")
    ensures r.Success? ==> r.value.AssetsField? && r.value.Type() == FieldType.asset
    ensures r.Success? ==> r.value.name == name && r.value.value == value
    ensures !value.JArray? ==> r.Success? && r.value.assets == []
    ensures r.Success? && value.JArray? ==>
      |r.value.assets| == |value.elems| &&
      forall i :: 0 <= i < |value.elems| ==> r.value.assets[i] == AssetFromRaw(value.elems[i])
  {
    var assets: seq<AssetModel> := [];
    if Truthy(value) {
      if value.JArray? {
        var i := 0;
        while i < |value.elems|
          invariant 0 <= i <= |value.elems|
          invariant |assets| == i
          invariant forall k :: 0 <= k < i ==> !Nullish(value.elems[k]) && assets[k] == AssetFromRaw(value.elems[k])
        {
          var raw := value.elems[i];
          var assetName := ReadProperty(raw, "name");
          if assetName.Failure? {
            return Failure(assetName.error);
          }
          assets := assets + [NewAssetModel(assetName.value, Member(raw, "type"), Member(raw, "size"),
                                            Member(raw, "description"), Member(raw, "url"))];
          i := i + 1;
        }
      }
    }
    r := Success(AssetsField(name, value, assets));
  }

  /** The raw shape the API documents for an asset: an object whose attributes have the declared types. */
  predicate IsRawAsset(raw: Json) {
    raw.JObject? &&
    "name" in raw.members && raw.members["name"].JString? &&
    "type" in raw.members && raw.members["type"].JString? &&
    "size" in raw.members && raw.members["size"].JNumber? &&
    "description" in raw.members && raw.members["description"].JString? &&
    "url" in raw.members && raw.members["url"].JString?
  }

  /** The asset read from a raw asset of the documented shape has the declared attribute types. */
  lemma AssetFromRawIsWellTyped(raw: Json)
    requires IsRawAsset(raw)
    ensures AssetFromRaw(raw).WellTyped()
    ensures AssetFromRaw(raw).size == raw.members["size"]
  {
  }

  /** The reason `getUrl` throws: with neither a resolver nor logging it calls `undefined`. */
  datatype UrlSlugError = UrlSlugResolverIsNotAFunction

  /** The url `getUrl` returns and the diagnostic lines it logs. */
  datatype UrlResolution = UrlResolution(url: Json, diagnostics: seq<string>)

  const MissingResolverMessage: string :=
    "You have to implement 'urlSlugResolver' in your Model class or your query in order to get url of this item"

  function EmptyUrlMessage(itemType: string): string {
    "'urlSlugResolver' is configured, but url resolved for '" + itemType + "' type was resolved to empty string"
  }

  /**
   * `UrlSlugField.getUrl`. Without a resolver and with logging, one diagnostic and an
   * `undefined` url; without a resolver and without logging, the call of the missing
   * callback throws. With a resolver, the url is its result even when that is empty;
   * an empty result with logging gives one diagnostic.
   */
  function GetUrl(contentItem: ContentItem, value: Json, resolver: Option<UrlSlugResolver>,
                  enableAdvancedLogging: bool): (r: Result<UrlResolution, UrlSlugError>)
    ensures r.Failure? <==> resolver.None? && !enableAdvancedLogging
    ensures resolver.None? && enableAdvancedLogging ==>
      r == Success(UrlResolution(JUndefined, [MissingResolverMessage]))
    ensures resolver.Some? ==> r.Success? && r.value.url == resolver.value(contentItem, value)
    ensures resolver.Some? ==>
      r.value.diagnostics == if enableAdvancedLogging && !Truthy(r.value.url)
                             then [EmptyUrlMessage(contentItem.system.itemType)] else []
    ensures r.Success? ==> |r.value.diagnostics| <= 1
    ensures r.Success? && r.value.diagnostics != [] ==> enableAdvancedLogging
  {
    if resolver.None? && enableAdvancedLogging then
      Success(UrlResolution(JUndefined, [MissingResolverMessage]))
    else if resolver.None? then
      Failure(UrlSlugResolverIsNotAFunction)
    else
      var url := resolver.value(contentItem, value);
      var diagnostics := if !Truthy(url) && enableAdvancedLogging
                         then [EmptyUrlMessage(contentItem.system.itemType)] else [];
      Success(UrlResolution(url, diagnostics))
  }

  /**
   * `new UrlSlugField(name, value, contentItem, urlSlugResolver, enableAdvancedLogging)`:
   * stores name, value and content item and the url `getUrl` gives. The resolver and
   * the logging flag, which only `getUrl` uses, are not kept in the field.
   */
  function NewUrlSlugField(name: string, value: Json, contentItem: ContentItem,
                           resolver: Option<UrlSlugResolver>, enableAdvancedLogging: bool)
    : (r: Result<(Field, seq<string>), UrlSlugError>)
    ensures r.Failure? <==> resolver.None? && !enableAdvancedLogging
    ensures r.Success? ==> r.value.0.UrlSlugField? && r.value.0.Type() == FieldType.url_slug
    ensures r.Success? ==> r.value.0.name == name && r.value.0.value == value && r.value.0.contentItem == contentItem
    ensures r.Success? ==> r.value.0.url == (if resolver.Some? then resolver.value(contentItem, value) else JUndefined)
    ensures r.Success? ==> r.value.1 == GetUrl(contentItem, value, resolver, enableAdvancedLogging).value.diagnostics
  {
    match GetUrl(contentItem, value, resolver, enableAdvancedLogging)
    case Failure(e) => Failure(e)
    case Success(resolution) =>
      Success((UrlSlugField(name, value, contentItem, resolution.url), resolution.diagnostics))
  }

  /**
   * A rich-text field. `getHtml()` resolves the raw HTML once and stores the result;
   * because the stored value is tested for truthiness, an empty result is resolved
   * again on every call. `resolutions` counts the resolver's invocations.
   */
  class RichTextField {
    const fieldType: FieldType := FieldType.rich_text
    const name: string
    const value: Json
    const modularItems: seq<ContentItem>
    const enableAdvancedLogging: bool
    const richTextResolverDefinedByQuery: Option<ItemResolver>
    const resolveHtml: HtmlResolver
    var items: seq<ContentItem>
    var resolvedHtml: Option<string>
    ghost var resolutions: nat

    /** What the resolver makes of this field's HTML and linked items. */
    function Resolution(): string {
      resolveHtml(value, modularItems, enableAdvancedLogging, richTextResolverDefinedByQuery)
    }

    /** The cache never holds anything but the resolver's result. */
    ghost predicate Valid()
      reads this
    {
      resolvedHtml.Some? ==> resolvedHtml.value == Resolution()
    }

    /** The stored HTML is reused only when it is truthy, that is, not empty. */
    predicate Cached()
      reads this
    {
      resolvedHtml.Some? && resolvedHtml.value != ""
    }

    constructor (name: string, value: Json, modularItems: seq<ContentItem>, enableAdvancedLogging: bool,
                 richTextResolverDefinedByQuery: Option<ItemResolver>, resolveHtml: HtmlResolver)
      ensures fieldType == FieldType.rich_text
      ensures Valid() && !Cached() && resolutions == 0
      ensures this.name == name && this.value == value && this.modularItems == modularItems
      ensures this.enableAdvancedLogging == enableAdvancedLogging
      ensures this.richTextResolverDefinedByQuery == richTextResolverDefinedByQuery
      ensures this.resolveHtml == resolveHtml
      ensures items == modularItems && resolvedHtml == None
    {
      this.name := name;
      this.value := value;
      this.modularItems := modularItems;
      this.enableAdvancedLogging := enableAdvancedLogging;
      this.richTextResolverDefinedByQuery := richTextResolverDefinedByQuery;
      this.resolveHtml := resolveHtml;
      items := modularItems;
      resolvedHtml := None;
      resolutions := 0;
    }

    /**
     * `getHtml()`: always the resolver's result for this field. A truthy stored result
     * is returned without invoking the resolver; otherwise the resolver runs once more
     * and its result is stored.
     */
    method GetHtml() returns (html: string)
      requires Valid()
      modifies this`resolvedHtml, this`resolutions
      ensures Valid()
      ensures html == Resolution() && resolvedHtml == Some(html)
      ensures old(Cached()) ==> resolvedHtml == old(resolvedHtml) && resolutions == old(resolutions)
      ensures !old(Cached()) ==> resolutions == old(resolutions) + 1
      ensures Cached() <==> html != ""
    {
      if resolvedHtml.Some? && resolvedHtml.value != "" {
        return resolvedHtml.value;
      }
      resolvedHtml := Some(resolveHtml(value, modularItems, enableAdvancedLogging, richTextResolverDefinedByQuery));
      resolutions := resolutions + 1;
      html := resolvedHtml.value;
    }
  }

  /** Calling `getHtml()` twice returns the same string, and a non-empty one is resolved only once. */
  method GetHtmlTwice(f: RichTextField) returns (first: string, second: string)
    requires f.Valid()
    modifies f`resolvedHtml, f`resolutions
    ensures first == second == f.Resolution()
    ensures first != "" ==> f.resolutions <= old(f.resolutions) + 1
    ensures first == "" ==> f.resolutions == old(f.resolutions) + 2
  {
    first := f.GetHtml();
    second := f.GetHtml();
  }
}
