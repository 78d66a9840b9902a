/** A value that may be absent: TypeScript's `string | null | undefined`
    collapses to `None` here, since the dashboard treats null and undefined alike. */
module Options {

  datatype Option<+T> = None | Some(value: T)
}
