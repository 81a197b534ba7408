/** The `Option` returned by the Rust code (`get_parent`, `iter().position`,
    `latlon_to_tile_xy`). */
module Optional {

  datatype Option<+T> = None | Some(value: T)

}
