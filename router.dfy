/** The client router's two navigations. */
module Router {
  /** `router.replace(path)` and `router.push(path)`. */
  datatype Navigation = Replace(path: string) | Push(path: string)
}
