/** The configuration values the download and combine phases read. */
module Config {
  import opened Wrappers

  /** The configured area, in the order the configuration file names it. */
  datatype BBox = BBox(west: int, south: int, east: int, north: int)

  /**
   * `name` and `ext` are the base name and extension of the configured output
   * file; `uniqueField` is `uniqueid_field`, None when the file leaves it null.
   */
  datatype Config = Config(
    bbox: BBox,
    size: int,
    url: string,
    version: string,
    layer: string,
    projection: string,
    name: string,
    ext: string,
    uniqueField: Option<string>)

  /** The projection whose axes the downloader swaps. */
  const Wgs84: string := "EPSG:4326"

  /**
   * Both axis generators stop: each either has a positive step or is empty
   * from the start. With any other configuration `arange` never returns.
   */
  predicate Terminates(cfg: Config) {
    cfg.size > 0 || (cfg.bbox.east <= cfg.bbox.west && cfg.bbox.north <= cfg.bbox.south)
  }
}
