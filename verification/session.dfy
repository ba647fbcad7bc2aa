/** The storefront's in-memory session state, its transitions and the view it renders. */
module Session {
  import opened Optional
  import opened Catalog
  import opened Cart
  import opened Storage

  /** The contact form's three controlled inputs; never persisted. */
  datatype ContactForm = ContactForm(name: string, email: string, message: string)

  const EmptyForm: ContactForm := ContactForm("", "", "")

  /** The component's state hooks. */
  datatype State = State(
    selectedProduct: Option<Product>,
    cart: seq<Product>,
    contactForm: ContactForm,
    showSignup: bool,
    auth: Option<User>,
    showCartPage: bool)

  /** The four mutually exclusive screens. */
  datatype View = SignupGate | CartPage | ProductDetail(product: Product) | Grid

  /** The state on page load: the cart and user are read from storage, everything else starts empty.
      The signup gate is shown exactly when no user is stored. */
  function Init(store: Store): (s: State)
    ensures store.cart.Some? ==> s.cart == store.cart.value
    ensures store.cart.None? ==> s.cart == []
    ensures s.showSignup <==> store.user.None?
    ensures s.auth == store.user
    ensures s.selectedProduct.None? && !s.showCartPage
    ensures s.contactForm == EmptyForm
  {
    State(None, store.cart.GetOr([]), EmptyForm, store.user.None?, store.user, false)
  }

  /** The screen for a state: signup gate, then cart page, then product detail, then grid. */
  function Render(s: State): (v: View)
    ensures v.SignupGate? <==> s.showSignup
    ensures v.CartPage? <==> !s.showSignup && s.showCartPage
    ensures v.ProductDetail? <==> !s.showSignup && !s.showCartPage && s.selectedProduct.Some?
    ensures v.ProductDetail? ==> v.product == s.selectedProduct.value
    ensures v.Grid? <==> !s.showSignup && !s.showCartPage && s.selectedProduct.None?
  {
    if s.showSignup then SignupGate
    else if s.showCartPage then CartPage
    else if s.selectedProduct.Some? then ProductDetail(s.selectedProduct.value)
    else Grid
  }

  /** `addToCart`: the product goes to the end of the cart; nothing else changes. */
  function AddToCart(s: State, p: Product): (r: State)
    ensures |r.cart| == |s.cart| + 1
    ensures r.cart[..|s.cart|] == s.cart && r.cart[|s.cart|] == p
    ensures Total(r.cart) == Total(s.cart) + p.price
    ensures r.(cart := s.cart) == s
  {
    TotalAppend(s.cart, p);
    s.(cart := Append(s.cart, p))
  }

  /** The Skip button closes the gate and changes nothing else; no user is created. */
  function Skip(s: State): (r: State)
    ensures !r.showSignup
    ensures r.auth == s.auth
    ensures r.(showSignup := s.showSignup) == s
  {
    s.(showSignup := false)
  }

  /** The Home and Store links: back to the grid, leaving cart, user and form alone. */
  function GoToStore(s: State): (r: State)
    ensures r.selectedProduct.None? && !r.showCartPage
    ensures r.cart == s.cart && r.auth == s.auth && r.showSignup == s.showSignup
    ensures r.contactForm == s.contactForm
  {
    s.(selectedProduct := None, showCartPage := false)
  }

  /** The Cart link raises the cart-page flag only; a selected product stays selected. */
  function OpenCart(s: State): (r: State)
    ensures r.showCartPage
    ensures r.selectedProduct == s.selectedProduct
    ensures r.(showCartPage := s.showCartPage) == s
  {
    s.(showCartPage := true)
  }

  /** "Back to Store" clears the selection only; the cart-page flag is left as it was. */
  function BackToStore(s: State): (r: State)
    ensures r.selectedProduct.None?
    ensures r.showCartPage == s.showCartPage
    ensures r.(selectedProduct := s.selectedProduct) == s
  {
    s.(selectedProduct := None)
  }

  /** Clicking a product card selects that product; nothing else changes. */
  function SelectProduct(s: State, p: Product): (r: State)
    ensures r.selectedProduct == Some(p)
    ensures r.(selectedProduct := s.selectedProduct) == s
  {
    s.(selectedProduct := Some(p))
  }

  /** Which contact input an edit goes to. */
  datatype ContactField = NameField | EmailField | MessageField

  /** An `onChange` of a contact input: that one field takes the typed value. */
  function EditContact(s: State, field: ContactField, value: string): (r: State)
    ensures field.NameField? ==> r.contactForm == s.contactForm.(name := value)
    ensures field.EmailField? ==> r.contactForm == s.contactForm.(email := value)
    ensures field.MessageField? ==> r.contactForm == s.contactForm.(message := value)
    ensures r.(contactForm := s.contactForm) == s
  {
    var f := s.contactForm;
    s.(contactForm := match field
                      case NameField => f.(name := value)
                      case EmailField => f.(email := value)
                      case MessageField => f.(message := value))
  }

  /** `handleContactSubmit`: the form is cleared and nothing is sent or stored.
      The handler itself does not check the fields. */
  function SubmitContact(s: State): (r: State)
    ensures r.contactForm.name == "" && r.contactForm.email == "" && r.contactForm.message == ""
    ensures r.(contactForm := s.contactForm) == s
  {
    s.(contactForm := EmptyForm)
  }
}
