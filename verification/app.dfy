/** The storefront as a whole: session state together with browser storage, driven by
    the user events that the current screen makes available. */
module Storefront {
  import opened Optional
  import opened Catalog
  import opened Cart
  import opened Storage
  import opened Session

  datatype App = App(state: State, store: Store)

  /** `handleSignup`: with a non-empty name and email the user is stored, becomes the
      signed-in user and the gate closes; otherwise nothing happens at all. */
  function Signup(app: App, name: string, email: string): (r: App)
    ensures name == "" || email == "" ==> r == app
    ensures name != "" && email != "" ==>
              && r.store.user == Some(User(name, email))
              && r.state.auth == Some(User(name, email))
              && !r.state.showSignup
              && r.store.cart == app.store.cart
              && r.state.(auth := app.state.auth, showSignup := app.state.showSignup) == app.state
  {
    if name != "" && email != "" then
      var user := User(name, email);
      App(app.state.(auth := Some(user), showSignup := false), WriteUser(app.store, user))
    else
      app
  }

  /** The cart effect: after a render in which the cart differs from the previous one,
      the cart is written to storage. Only the `cart` slot is ever touched. */
  function CartEffect(previous: seq<Product>, app: App): (r: App)
    ensures r.state == app.state
    ensures r.store.user == app.store.user
    ensures app.state.cart != previous ==> r.store.cart == Some(app.state.cart)
    ensures app.state.cart == previous ==> r.store == app.store
  {
    if app.state.cart != previous then app.(store := WriteCart(app.store, app.state.cart)) else app
  }

  /** Page load: the state is read from storage, then the cart effect runs once on mount. */
  function Boot(store: Store): (r: App)
    ensures r.state == Init(store)
    ensures r.store == Store(Some(r.state.cart), store.user)
  {
    var s := Init(store);
    App(s, WriteCart(store, s.cart))
  }

  /** The user interactions the page offers. `Card(i)` is a click on the i-th grid card;
      `AddSelected` is the "Add to Cart" button of the detail panel. */
  datatype Event =
    | SignupSubmit(name: string, email: string)
    | SkipSignup
    | HomeLink
    | StoreLink
    | CartLink
    | BackButton
    | Card(index: nat)
    | AddSelected
    | ContactEdit(field: ContactField, value: string)
    | ContactSubmit

  /** The handler an event reaches. An event whose element is not on the current screen
      (a card click behind the signup gate, say) does nothing. */
  function Dispatch(app: App, e: Event): (r: App)
    // Handlers never write the cart slot themselves; that is the cart effect's job.
    ensures r.store.cart == app.store.cart
    // The signup form is live only behind the gate.
    ensures (e.SignupSubmit? || e.SkipSignup?) && !Render(app.state).SignupGate? ==> r == app
    ensures e.SignupSubmit? && Render(app.state).SignupGate? ==> r == Signup(app, e.name, e.email)
    ensures e.SkipSignup? && Render(app.state).SignupGate? ==>
              r.store == app.store && r.state == app.state.(showSignup := false)
    // The navigation bar and the contact form are live everywhere except behind the gate.
    ensures !(e.SignupSubmit? || e.SkipSignup?) && Render(app.state).SignupGate? ==> r == app
    ensures (e.HomeLink? || e.StoreLink?) && !Render(app.state).SignupGate? ==>
              && r.store == app.store
              && r.state == app.state.(selectedProduct := None, showCartPage := false)
    ensures e.CartLink? && !Render(app.state).SignupGate? ==>
              r.store == app.store && r.state == app.state.(showCartPage := true)
    ensures e.ContactSubmit? && !Render(app.state).SignupGate? ==>
              r.store == app.store && r.state == app.state.(contactForm := EmptyForm)
    ensures e.ContactEdit? && !Render(app.state).SignupGate? ==>
              r.store == app.store && r.state == EditContact(app.state, e.field, e.value)
    // Back and Add to Cart exist only on the detail panel; Add to Cart appends the product on display.
    ensures (e.BackButton? || e.AddSelected?) && !Render(app.state).ProductDetail? ==> r == app
    ensures e.BackButton? && Render(app.state).ProductDetail? ==>
              r.store == app.store && r.state == app.state.(selectedProduct := None)
    ensures e.AddSelected? && Render(app.state).ProductDetail? ==>
              && r.store == app.store
              && r.state == app.state.(cart := app.state.cart + [app.state.selectedProduct.value])
    // A card click acts only on the grid, and only on a card that exists; card i is the product with id i + 1.
    ensures e.Card? && !(Render(app.state).Grid? && e.index < |Products|) ==> r == app
    ensures e.Card? && Render(app.state).Grid? && e.index < |Products| ==>
              && r.store == app.store
              && r.state == app.state.(selectedProduct := Some(Products[e.index]))
              && r.state.selectedProduct.value.id == e.index + 1
  {
    var s := app.state;
    var v := Render(s);
    match e
    case SignupSubmit(name, email) => if v.SignupGate? then Signup(app, name, email) else app
    case SkipSignup => if v.SignupGate? then app.(state := Skip(s)) else app
    case HomeLink => if v.SignupGate? then app else app.(state := GoToStore(s))
    case StoreLink => if v.SignupGate? then app else app.(state := GoToStore(s))
    case CartLink => if v.SignupGate? then app else app.(state := OpenCart(s))
    case BackButton => if v.ProductDetail? then app.(state := BackToStore(s)) else app
    case Card(i) => if v.Grid? && i < |Products| then app.(state := SelectProduct(s, Products[i])) else app
    case AddSelected => if v.ProductDetail? then app.(state := AddToCart(s, v.product)) else app
    case ContactEdit(field, value) => if v.SignupGate? then app else app.(state := EditContact(s, field, value))
    case ContactSubmit => if v.SignupGate? then app else app.(state := SubmitContact(s))
  }

  /** The in-memory state agrees with storage: the stored cart is the cart, the stored user is the user. */
  predicate Synced(app: App)
  {
    app.store.cart == Some(app.state.cart) && app.store.user == app.state.auth
  }

  /** What holds of every state the page can reach. */
  predicate Consistent(app: App)
  {
    && Synced(app)
    && (app.state.showSignup ==> app.state.auth.None?)
    && (app.state.selectedProduct.Some? ==> app.state.selectedProduct.value in Products)
  }

  /** One interaction: the handler, then the cart effect. The gate never reopens, the cart only
      grows and only by catalogue products, and consistency with storage is kept. */
  function Step(app: App, e: Event): (r: App)
    ensures r.state.showSignup ==> app.state.showSignup
    ensures r.state.auth == app.state.auth || e.SignupSubmit?
    ensures Consistent(app) && app.state.auth.Some? ==> r.state.auth == app.state.auth
    ensures |app.state.cart| <= |r.state.cart| <= |app.state.cart| + 1
    ensures r.state.cart[..|app.state.cart|] == app.state.cart
    ensures |r.state.cart| > |app.state.cart| && Consistent(app) ==> r.state.cart[|app.state.cart|] in Products
    ensures Consistent(app) ==> Consistent(r)
  {
    CartEffect(app.state.cart, Dispatch(app, e))
  }

  /** A sequence of interactions, in order. */
  function Run(app: App, events: seq<Event>): (r: App)
    decreases |events|
  {
    if |events| == 0 then app else Run(Step(app, events[0]), events[1..])
  }

  /** A session: page load followed by the given interactions. */
  function Visit(store: Store, events: seq<Event>): (r: App)
  {
    Run(Boot(store), events)
  }

  /** Page load produces a consistent app whose screen is the gate exactly when no user is stored. */
  lemma BootConsistent(store: Store)
    ensures Consistent(Boot(store))
    ensures Render(Boot(store).state).SignupGate? <==> store.user.None?
    ensures !Render(Boot(store).state).SignupGate? ==> Render(Boot(store).state).Grid?
  {
  }

  /** Consistency holds after any sequence of interactions. */
  lemma {:induction false} RunConsistent(app: App, events: seq<Event>)
    requires Consistent(app)
    ensures Consistent(Run(app, events))
    decreases |events|
  {
    if |events| > 0 {
      RunConsistent(Step(app, events[0]), events[1..]);
    }
  }

  /** Once the gate is closed no sequence of interactions opens it again. */
  lemma {:induction false} GateNeverReopens(app: App, events: seq<Event>)
    requires !app.state.showSignup
    ensures !Run(app, events).state.showSignup
    decreases |events|
  {
    if |events| > 0 {
      GateNeverReopens(Step(app, events[0]), events[1..]);
    }
  }

  /** Once a user is signed in, no sequence of interactions replaces or removes it. */
  lemma {:induction false} UserIsPermanent(app: App, events: seq<Event>)
    requires Consistent(app)
    requires app.state.auth.Some?
    ensures Run(app, events).state.auth == app.state.auth
    ensures Run(app, events).store.user == app.store.user
    decreases |events|
  {
    if |events| > 0 {
      UserIsPermanent(Step(app, events[0]), events[1..]);
    }
  }

  /** The cart only grows: what was in it stays in place, and everything added comes from the catalogue. */
  lemma {:induction false} CartOnlyGrows(app: App, events: seq<Event>)
    requires Consistent(app)
    ensures |Run(app, events).state.cart| >= |app.state.cart|
    ensures Run(app, events).state.cart[..|app.state.cart|] == app.state.cart
    ensures AllFromCatalogue(Run(app, events).state.cart[|app.state.cart|..])
    decreases |events|
  {
    if |events| > 0 {
      var next := Step(app, events[0]);
      CartOnlyGrows(next, events[1..]);
      var final := Run(next, events[1..]).state.cart;
      var n := |app.state.cart|;
      assert final[..|next.state.cart|][..n] == final[..n];
      forall i | n <= i < |final| ensures final[i] in Products {
        if i >= |next.state.cart| {
          assert final[|next.state.cart|..][i - |next.state.cart|] == final[i];
        } else {
          assert final[..|next.state.cart|][i] == final[i];
        }
      }
      assert forall i :: 0 <= i < |final[n..]| ==> final[n..][i] == final[i + n];
    }
  }

  /** Over a whole session: storage mirrors the state, the cart starts with the stored cart,
      and the gate is open only while nobody has signed up and no user was stored at load. */
  lemma VisitInvariants(store: Store, events: seq<Event>)
    ensures Synced(Visit(store, events))
    ensures store.cart.Some? ==>
              && |Visit(store, events).state.cart| >= |store.cart.value|
              && Visit(store, events).state.cart[..|store.cart.value|] == store.cart.value
    ensures Visit(store, events).state.showSignup ==> store.user.None? && Visit(store, events).state.auth.None?
  {
    BootConsistent(store);
    RunConsistent(Boot(store), events);
    CartOnlyGrows(Boot(store), events);
    if store.user.Some? {
      GateNeverReopens(Boot(store), events);
    }
  }

  /** While the gate is up, only the signup form reacts; every store interaction is ignored. */
  lemma GateBlocksStore(app: App, e: Event)
    requires app.state.showSignup
    requires !e.SignupSubmit? && !e.SkipSignup?
    ensures Step(app, e) == app
  {
  }

  /** The cart page wins over a selected product: the Cart link shows the cart from any store screen,
      whatever product is selected, and the selection is kept. */
  lemma CartLinkShowsCart(app: App)
    requires !app.state.showSignup
    ensures Render(Step(app, CartLink).state) == CartPage
    ensures Step(app, CartLink).state.selectedProduct == app.state.selectedProduct
    ensures Step(app, CartLink).state.cart == app.state.cart
  {
  }

  /** The Home and Store links both land on the grid from any store screen, cart and user unchanged. */
  lemma NavigationLandsOnGrid(app: App, e: Event)
    requires !app.state.showSignup
    requires e.HomeLink? || e.StoreLink?
    ensures Render(Step(app, e).state) == Grid
    ensures Step(app, e).state.cart == app.state.cart && Step(app, e).state.auth == app.state.auth
  {
  }

  /** A card click on the grid selects the one catalogue product whose id is the card's position plus one. */
  lemma CardSelectsById(app: App, i: nat)
    requires Render(app.state).Grid? && i < |Products|
    ensures Step(app, Card(i)).state.selectedProduct.Some?
    ensures Step(app, Card(i)).state.selectedProduct.value.id == i + 1
    ensures forall p :: p in Products && p.id == i + 1 ==> Step(app, Card(i)).state.selectedProduct == Some(p)
  {
    IdsDistinct();
  }

  /** A stored cart survives a reload unchanged, in the same order. */
  lemma ReloadKeepsCart(cart: seq<Product>, user: Option<User>)
    ensures Boot(Store(Some(cart), user)).state.cart == cart
    ensures Boot(Store(Some(cart), user)).store.cart == Some(cart)
  {
  }

  /** First visit, then Skip: the grid is shown and no user is stored. */
  lemma SkipScenario()
    ensures Render(Visit(Store(None, None), [SkipSignup]).state) == Grid
    ensures Visit(Store(None, None), [SkipSignup]).store.user == None
  {
    assert Visit(Store(None, None), [SkipSignup]) == Step(Boot(Store(None, None)), SkipSignup);
  }

  /** First visit, then signing up as Cameron: the user is stored and the gate closes. */
  lemma SignupScenario()
    ensures Visit(Store(None, None), [SignupSubmit("Cameron", "c@x.com")]).store.user
            == Some(User("Cameron", "c@x.com"))
    ensures Render(Visit(Store(None, None), [SignupSubmit("Cameron", "c@x.com")]).state) == Grid
  {
    var e := SignupSubmit("Cameron", "c@x.com");
    assert Visit(Store(None, None), [e]) == Step(Boot(Store(None, None)), e);
  }

  /** Selecting the first jacket and then opening the cart shows the cart page, while the
      selection is still held in state (the Cart link does not clear it). */
  lemma SelectThenCartScenario()
    ensures Render(Visit(Store(None, None), [SkipSignup, Card(0), CartLink]).state) == CartPage
    ensures Visit(Store(None, None), [SkipSignup, Card(0), CartLink]).state.selectedProduct == Some(BlackPuffer)
  {
    var a0 := Boot(Store(None, None));
    var a1 := Step(a0, SkipSignup);
    var a2 := Step(a1, Card(0));
    var a3 := Step(a2, CartLink);
    assert Run(a3, []) == a3;
    assert Run(a2, [CartLink]) == a3;
    assert Run(a1, [Card(0), CartLink]) == a3 by {
      assert [Card(0), CartLink][1..] == [CartLink];
    }
    assert Run(a0, [SkipSignup, Card(0), CartLink]) == a3 by {
      assert [SkipSignup, Card(0), CartLink][1..] == [Card(0), CartLink];
    }
  }

  /** Running a non-empty sequence is one step followed by the rest. */
  lemma RunCons(app: App, e: Event, rest: seq<Event>)
    ensures Run(app, [e] + rest) == Run(Step(app, e), rest)
  {
    assert ([e] + rest)[1..] == rest;
  }

  /** Skipping signup, then adding jacket 1 (120) and jacket 2 (110) from their detail
      panels, leaves two items in the cart, in that order, totalling 230. */
  lemma TwoJacketsScenario()
    ensures Visit(Store(None, None), [SkipSignup, Card(0), AddSelected, BackButton, Card(1), AddSelected]).state.cart
            == [BlackPuffer, NavyPuffer]
    ensures Total(Visit(Store(None, None), [SkipSignup, Card(0), AddSelected, BackButton, Card(1), AddSelected]).state.cart)
            == 230
  {
    var a0 := Boot(Store(None, None));
    assert a0.state == State(None, [], EmptyForm, true, None, false);
    var a1 := Step(a0, SkipSignup);
    assert a1.state == State(None, [], EmptyForm, false, None, false);
    var a2 := Step(a1, Card(0));
    assert a2.state == State(Some(BlackPuffer), [], EmptyForm, false, None, false);
    var a3 := Step(a2, AddSelected);
    assert a3.state == State(Some(BlackPuffer), [BlackPuffer], EmptyForm, false, None, false);
    var a4 := Step(a3, BackButton);
    assert a4.state == State(None, [BlackPuffer], EmptyForm, false, None, false);
    var a5 := Step(a4, Card(1));
    assert a5.state == State(Some(NavyPuffer), [BlackPuffer], EmptyForm, false, None, false);
    var a6 := Step(a5, AddSelected);
    assert a6.state.cart == [BlackPuffer, NavyPuffer];
    RunCons(a5, AddSelected, []);
    RunCons(a4, Card(1), [AddSelected]);
    RunCons(a3, BackButton, [Card(1), AddSelected]);
    RunCons(a2, AddSelected, [BackButton, Card(1), AddSelected]);
    RunCons(a1, Card(0), [AddSelected, BackButton, Card(1), AddSelected]);
    RunCons(a0, SkipSignup, [Card(0), AddSelected, BackButton, Card(1), AddSelected]);
    TotalAppend([], BlackPuffer);
    TotalAppend([BlackPuffer], NavyPuffer);
    assert [BlackPuffer] == Append([], BlackPuffer);
    assert [BlackPuffer, NavyPuffer] == Append([BlackPuffer], NavyPuffer);
  }
}
