/** Values the browser pages share. */
module ClientTypes {
  /** `useSession().status`. */
  datatype SessionStatus = Loading | Authenticated | Unauthenticated

  /** A place chosen in the location picker and not yet saved. The picker also
      carries coordinates, which the pages only forward. */
  datatype Selection = Selection(city: string, country: string)
}
