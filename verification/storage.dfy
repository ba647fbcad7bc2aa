/** Browser storage as the storefront uses it: two optional slots, `cart` and `user`.
    Values are kept typed; their JSON encoding is not modelled. */
module Storage {
  import opened Optional
  import opened Catalog

  /** A signed-up user; created once by the signup form and never changed afterwards. */
  datatype User = User(name: string, email: string)

  /** The durable store. An absent slot is `None`. */
  datatype Store = Store(cart: Option<seq<Product>>, user: Option<User>)

  /** Writing the `cart` slot replaces its value and leaves the `user` slot alone. */
  function WriteCart(store: Store, cart: seq<Product>): (r: Store)
    ensures r.cart == Some(cart)
    ensures r.user == store.user
  {
    store.(cart := Some(cart))
  }

  /** Writing the `user` slot replaces its value and leaves the `cart` slot alone. */
  function WriteUser(store: Store, user: User): (r: Store)
    ensures r.user == Some(user)
    ensures r.cart == store.cart
  {
    store.(user := Some(user))
  }
}
