/**
 * The plain records the asset and multiple-choice fields are built from
 * (lib/fields/field-models.ts). Their constructors only store their arguments.
 * TypeScript's parameter types are erased at run time and the callers cast raw
 * JSON to them unchecked, so every attribute holds whatever JSON value it was given;
 * `WellTyped` states the declared types.
 */
module FieldModels {
  import opened JsonValues

  /** An asset: name, type, size, description and url, in the constructor's order. */
  datatype AssetModel = AssetModel(name: Json, assetType: Json, size: Json, description: Json, url: Json)
  {
    /** The declared types: `size` is the only number, the other four are strings. */
    predicate WellTyped() {
      name.JString? && assetType.JString? && size.JNumber? && description.JString? && url.JString?
    }
  }

  /** One option of a multiple-choice field. */
  datatype MultipleChoiceOption = MultipleChoiceOption(name: Json, codename: Json)
  {
    /** The declared types: both attributes are strings. */
    predicate WellTyped() {
      name.JString? && codename.JString?
    }
  }

  /** `new AssetModel(name, type, size, description, url)`: accepts every argument, stores each in its own position. */
  function NewAssetModel(name: Json, assetType: Json, size: Json, description: Json, url: Json): (a: AssetModel)
    ensures a.name == name && a.assetType == assetType && a.size == size
    ensures a.description == description && a.url == url
    ensures a.WellTyped() <==> name.JString? && assetType.JString? && size.JNumber? && description.JString? && url.JString?
  {
    AssetModel(name, assetType, size, description, url)
  }

  /** `new MultipleChoiceOption(name, codename)`: accepts every argument, stores both unchanged. */
  function NewMultipleChoiceOption(name: Json, codename: Json): (o: MultipleChoiceOption)
    ensures o.name == name && o.codename == codename
    ensures o.WellTyped() <==> name.JString? && codename.JString?
  {
    MultipleChoiceOption(name, codename)
  }
}
