/**
 * The asset metadata table the front end reads: symbol to display name and category, in
 * insertion order. Its contents are configuration data outside this model, so every operation
 * takes the table as a parameter.
 */
module Catalog {
  import opened Util
  import opened Records

  /** One metadata entry. */
  datatype AssetMeta = AssetMeta(name: string, category: string)

  /** `ASSET_METADATA`. */
  type Metadata = Record<AssetMeta>

  /** `ASSET_METADATA[asset]?.name ?? fallback`. */
  function NameOr(meta: Metadata, asset: string, fallback: string): (name: string)
    ensures asset in Keys(meta) ==> name == Lookup(meta, asset).value.name
    ensures asset !in Keys(meta) ==> name == fallback
  {
    match Lookup(meta, asset)
    case Some(m) => m.name
    case None => fallback
  }

  /** The label of a weight slider: the metadata name, or the upper-cased symbol. */
  function SliderLabel(meta: Metadata, asset: string): (text: string)
    ensures asset !in Keys(meta) ==> text == Upper(asset)
    ensures asset in Keys(meta) ==> text == Lookup(meta, asset).value.name
  {
    NameOr(meta, asset, Upper(asset))
  }
}
