/** Optional values: a TypeScript `T | null` (or `T | undefined`) field or result. */
module Options {
  datatype Option<+T> = None | Some(value: T)
}
