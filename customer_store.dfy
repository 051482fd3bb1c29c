/**
 * `CustomerStore`: the signed-in customer's record, a loading flag and the
 * last error. Every action first marks the store as loading and clears the
 * error, then the customer service answers; its answer is given to the
 * matching success or failure handler. A successful change either reloads
 * the customer by e-mail or edits the stored record, and announces itself
 * with a success notification.
 */
module CustomerStores {
  import opened Wrappers
  import opened Text
  import opened Lists
  import opened Models
  import opened Notifications
  import Auth

  datatype CustomerState = CustomerState(customer: Option<Customer>, loading: bool, error: Option<string>)

  /** A `Partial<CustomerState>`: `None` for a property the update does not mention. */
  datatype CustomerPatch = CustomerPatch(customer: Option<Option<Customer>>, loading: Option<bool>, error: Option<Option<string>>)

  /** `{ ...current, ...patch }`: the mentioned properties replaced, the others kept. */
  function Merge(s: CustomerState, p: CustomerPatch): (t: CustomerState)
    ensures t.customer == (if p.customer.Some? then p.customer.value else s.customer)
    ensures t.loading == (if p.loading.Some? then p.loading.value else s.loading)
    ensures t.error == (if p.error.Some? then p.error.value else s.error)
  {
    CustomerState(p.customer.GetOr(s.customer), p.loading.GetOr(s.loading), p.error.GetOr(s.error))
  }

  /** Two updates in a row are one update in which the later one's properties win. */
  function Then(p: CustomerPatch, q: CustomerPatch): CustomerPatch {
    CustomerPatch(if q.customer.Some? then q.customer else p.customer,
                  if q.loading.Some? then q.loading else p.loading,
                  if q.error.Some? then q.error else p.error)
  }

  lemma MergeThen(s: CustomerState, p: CustomerPatch, q: CustomerPatch)
    ensures Merge(Merge(s, p), q) == Merge(s, Then(p, q))
  {
  }

  /** Applying the same update twice is applying it once; the empty update changes nothing. */
  lemma MergeIdempotent(s: CustomerState, p: CustomerPatch)
    ensures Merge(Merge(s, p), p) == Merge(s, p)
    ensures Merge(s, CustomerPatch(None, None, None)) == s
  {
  }

  /** The update every action makes first: loading, no error. */
  const Started := CustomerPatch(None, Some(true), Some(None))

  /** The update every failure handler makes. */
  function Failed(message: string): CustomerPatch {
    CustomerPatch(None, Some(false), Some(Some(message)))
  }

  /** The update a handler that stores a record makes. */
  function Stored(customer: Option<Customer>): CustomerPatch {
    CustomerPatch(Some(customer), Some(false), None)
  }

  /** `!!customer`. */
  predicate HasCustomer(s: CustomerState) {
    s.customer.Some?
  }

  /** `customerName`: '' without a customer, else the trimmed "first last", a missing part read as ''. */
  function CustomerName(s: CustomerState): (r: string)
    ensures s.customer.None? ==> r == ""
    ensures r != "" ==> !IsSpace(r[0]) && !IsSpace(r[|r| - 1])
  {
    if s.customer.None? then ""
    else JoinTrimmed(s.customer.value.firstName.GetOr(""), s.customer.value.lastName.GetOr(""))
  }

  /** The name is empty exactly when there is no customer or both name parts are blank. */
  lemma CustomerNameEmpty(s: CustomerState)
    ensures CustomerName(s) == "" <==>
      s.customer.None? || (AllSpace(s.customer.value.firstName.GetOr("")) && AllSpace(s.customer.value.lastName.GetOr("")))
  {
    if s.customer.Some? {
      JoinTrimmedEmptyIff(s.customer.value.firstName.GetOr(""), s.customer.value.lastName.GetOr(""));
    }
  }

  /** A first name without white space at its ends opens the customer's name. */
  lemma CustomerNameStartsWithFirstName(s: CustomerState)
    requires s.customer.Some? && s.customer.value.firstName.Some?
    requires var f := s.customer.value.firstName.value; f != [] && !IsSpace(f[0]) && !IsSpace(f[|f| - 1])
    ensures var f := s.customer.value.firstName.value; |CustomerName(s)| >= |f| && CustomerName(s)[..|f|] == f
  {
    JoinTrimmedPrefix(s.customer.value.firstName.value, s.customer.value.lastName.GetOr(""));
  }

  /** `customer?.email || ''`. */
  function CustomerEmail(s: CustomerState): (r: string)
    ensures s.customer.Some? && s.customer.value.email.Some? ==> r == s.customer.value.email.value
    ensures s.customer.None? || s.customer.value.email.None? ==> r == ""
  {
    if s.customer.Some? then s.customer.value.email.GetOr("") else ""
  }

  /** `customer?.addresses || []`. */
  function Addresses(s: CustomerState): (r: seq<Address>)
    ensures s.customer.Some? && s.customer.value.addresses.Some? ==> r == s.customer.value.addresses.value
    ensures s.customer.None? || s.customer.value.addresses.None? ==> r == []
  {
    if s.customer.Some? then s.customer.value.addresses.GetOr([]) else []
  }

  /** `customer?.credit_cards || []`. */
  function CreditCards(s: CustomerState): (r: seq<CreditCard>)
    ensures s.customer.Some? && s.customer.value.creditCards.Some? ==> r == s.customer.value.creditCards.value
    ensures s.customer.None? || s.customer.value.creditCards.None? ==> r == []
  {
    if s.customer.Some? then s.customer.value.creditCards.GetOr([]) else []
  }

  /** `defaultAddress`: the first address marked default; none when no address is. */
  function DefaultAddress(s: CustomerState): (r: Option<Address>)
    ensures r.None? <==> forall i :: 0 <= i < |Addresses(s)| ==> !Addresses(s)[i].isDefault
    ensures r.Some? ==> exists i :: (0 <= i < |Addresses(s)| && Addresses(s)[i] == r.value && r.value.isDefault
      && forall j :: 0 <= j < i ==> !Addresses(s)[j].isDefault)
  {
    Find(Addresses(s), (a: Address) => a.isDefault)
  }

  /** `defaultCreditCard`: the first card marked default; none when no card is. */
  function DefaultCreditCard(s: CustomerState): (r: Option<CreditCard>)
    ensures r.None? <==> forall i :: 0 <= i < |CreditCards(s)| ==> !CreditCards(s)[i].isDefault
    ensures r.Some? ==> exists i :: (0 <= i < |CreditCards(s)| && CreditCards(s)[i] == r.value && r.value.isDefault
      && forall j :: 0 <= j < i ==> !CreditCards(s)[j].isDefault)
  {
    Find(CreditCards(s), (c: CreditCard) => c.isDefault)
  }

  /** With at most one address marked default, the default address is that one. */
  lemma DefaultAddressUnique(s: CustomerState, k: nat)
    requires k < |Addresses(s)| && Addresses(s)[k].isDefault
    requires forall i :: 0 <= i < |Addresses(s)| && i != k ==> !Addresses(s)[i].isDefault
    ensures DefaultAddress(s) == Some(Addresses(s)[k])
  {
  }

  /** `addresses.filter(a => a.address_id !== id)`: an address without an identifier is always kept. */
  function AddressesWithout(addresses: seq<Address>, id: string): (r: seq<Address>)
    ensures forall a :: a in r <==> a in addresses && a.addressId != Some(id)
  {
    FilterMembers(addresses, (a: Address) => a.addressId != Some(id));
    Filter(addresses, (a: Address) => a.addressId != Some(id))
  }

  /** `cards.filter(c => c.card_id !== id)`: a card without an identifier is always kept. */
  function CardsWithout(cards: seq<CreditCard>, id: string): (r: seq<CreditCard>)
    ensures forall c :: c in r <==> c in cards && c.cardId != Some(id)
  {
    FilterMembers(cards, (c: CreditCard) => c.cardId != Some(id));
    Filter(cards, (c: CreditCard) => c.cardId != Some(id))
  }

  /** Removing an address keeps the others in their order: the removal of a concatenation is the concatenation of the removals. */
  lemma AddressesWithoutKeepsOrder(a: seq<Address>, b: seq<Address>, id: string)
    ensures AddressesWithout(a + b, id) == AddressesWithout(a, id) + AddressesWithout(b, id)
  {
    FilterAppend(a, b, (x: Address) => x.addressId != Some(id));
  }

  /** Removing a card keeps the others in their order. */
  lemma CardsWithoutKeepsOrder(a: seq<CreditCard>, b: seq<CreditCard>, id: string)
    ensures CardsWithout(a + b, id) == CardsWithout(a, id) + CardsWithout(b, id)
  {
    FilterAppend(a, b, (x: CreditCard) => x.cardId != Some(id));
  }

  /** Removing an identifier no address has keeps the list as it is. */
  lemma AddressesWithoutUnknown(addresses: seq<Address>, id: string)
    requires forall i :: 0 <= i < |addresses| ==> addresses[i].addressId != Some(id)
    ensures AddressesWithout(addresses, id) == addresses
  {
    FilterAllKept(addresses, (a: Address) => a.addressId != Some(id));
  }

  /**
   * The customer `createCustomerFromAuth` asks the service to create from
   * the signed-in user's claims; none without a non-empty e-mail claim.
   */
  function NewCustomerFromAuth(user: Option<Auth.UserData>): (r: Option<Customer>)
    ensures r.Some? <==> user.Some? && user.value.email.Some? && user.value.email.value != ""
    ensures r.Some? ==> (r.value.customerId == "" && r.value.email == user.value.email
      && r.value.firstName == user.value.givenName && r.value.lastName == user.value.familyName
      && r.value.phone == Some("")
      && r.value.addresses == Some([]) && r.value.creditCards == Some([]) && r.value.customerStatuses == Some([]))
    ensures r.Some? && user.value.preferredUsername.Some? && user.value.preferredUsername.value != "" ==>
      r.value.userName == user.value.preferredUsername.value
    ensures r.Some? && (user.value.preferredUsername.None? || user.value.preferredUsername.value == "") ==>
      r.value.userName == user.value.email.value
  {
    if user.None? || user.value.email.None? || user.value.email.value == "" then None
    else
      var u := user.value;
      var preferred := u.preferredUsername.GetOr("");
      Some(Customer("", if preferred != "" then preferred else u.email.value, u.email, u.givenName, u.familyName,
                    Some(""), Some([]), Some([]), Some([])))
  }

  /** The store's actions, each with its own failure message. */
  datatype Action = Load | Create | UpdateProfile | AddAddress | UpdateAddress | DeleteAddress | AddCard | UpdateCard | DeleteCard

  function FailureMessage(action: Action): (r: string)
    ensures |r| > 10 && r[..10] == "Failed to "
  {
    match action
    case Load => "Failed to load customer data"
    case Create => "Failed to create customer profile"
    case UpdateProfile => "Failed to update profile"
    case AddAddress => "Failed to add address"
    case UpdateAddress => "Failed to update address"
    case DeleteAddress => "Failed to delete address"
    case AddCard => "Failed to add credit card"
    case UpdateCard => "Failed to update credit card"
    case DeleteCard => "Failed to delete credit card"
  }

  /** Each action fails with a message of its own, so the error tells which action failed. */
  lemma FailureMessageInjective(a: Action, b: Action)
    requires FailureMessage(a) == FailureMessage(b)
    ensures a == b
  {
  }

  /** What an address or card action is about. */
  datatype Item = AddressItem | CardItem

  function AddedMessage(item: Item): string {
    match item
    case AddressItem => "Address added successfully"
    case CardItem => "Credit card added successfully"
  }

  function UpdatedMessage(item: Item): string {
    match item
    case AddressItem => "Address updated successfully"
    case CardItem => "Credit card updated successfully"
  }

  class CustomerStore {
    var state: CustomerState

    constructor ()
      ensures state == CustomerState(None, false, None)
    {
      state := CustomerState(None, false, None);
    }

    /** `setState`: the partial update merged into the current state. */
    method SetState(p: CustomerPatch)
      modifies this
      ensures state == Merge(old(state), p)
    {
      state := Merge(state, p);
    }

    /** `loadCustomer`: nothing for an empty e-mail, else the load starts. */
    method LoadCustomer(email: string)
      modifies this
      ensures email == "" ==> state == old(state)
      ensures email != "" ==> state == old(state).(loading := true, error := None)
    {
      if email == "" {
        return;
      }
      SetState(Started);
    }

    /**
     * The service found (or did not find) the customer. A found customer is
     * stored; otherwise the store turns to `createCustomerFromAuth` and
     * returns the record to create, if the user's claims allow one.
     */
    method OnLoadCustomerSuccess(customer: Option<Customer>, user: Option<Auth.UserData>) returns (toCreate: Option<Customer>)
      modifies this
      ensures customer.Some? ==> state == old(state).(customer := customer, loading := false) && toCreate.None?
      ensures customer.None? ==> state == old(state) && toCreate == NewCustomerFromAuth(user)
    {
      if customer.Some? {
        SetState(Stored(customer));
        toCreate := None;
      } else {
        toCreate := NewCustomerFromAuth(user);
      }
    }

    method OnCreateCustomerSuccess(saved: Option<Customer>, notifier: NotificationService)
      requires notifier.Valid()
      modifies this, notifier
      ensures state == old(state).(customer := saved, loading := false)
      ensures notifier.Valid()
      ensures notifier.notifications == old(notifier.notifications) +
        [Notification(IdFor(old(notifier.nextId)), Success, None, "Customer profile created successfully", 3000)]
    {
      SetState(Stored(saved));
      notifier.ShowSuccess("Customer profile created successfully", None, None);
    }

    /** `updateCustomer`: the update starts; the record itself goes to the service. */
    method UpdateCustomer()
      modifies this
      ensures state == old(state).(loading := true, error := None)
    {
      SetState(Started);
    }

    method OnUpdateCustomerSuccess(updated: Option<Customer>, notifier: NotificationService)
      requires notifier.Valid()
      modifies this, notifier
      ensures state == old(state).(customer := updated, loading := false)
      ensures notifier.Valid()
      ensures notifier.notifications == old(notifier.notifications) +
        [Notification(IdFor(old(notifier.nextId)), Success, None, "Profile updated successfully", 3000)]
    {
      SetState(Stored(updated));
      notifier.ShowSuccess("Profile updated successfully", None, None);
    }

    /**
     * `addAddress` and `addCreditCard`: nothing without a customer that has a
     * non-empty identifier; otherwise the action starts, and the e-mail to
     * reload with afterwards is captured now.
     */
    method StartAddition() returns (reloadEmail: Option<string>)
      modifies this
      ensures reloadEmail.None? <==> old(state).customer.None? || old(state).customer.value.customerId == ""
      ensures reloadEmail.None? ==> state == old(state)
      ensures reloadEmail.Some? ==> (state == old(state).(loading := true, error := None)
        && reloadEmail.value == old(state).customer.value.email.GetOr(""))
    {
      if state.customer.None? || state.customer.value.customerId == "" {
        return None;
      }
      reloadEmail := Some(state.customer.value.email.GetOr(""));
      SetState(Started);
    }

    /**
     * An addition succeeded: the customer captured at the start is reloaded
     * by e-mail, and the addition announced. The reload of an empty e-mail does
     * nothing, so the store then stays loading.
     */
    method OnAdditionSuccess(item: Item, reloadEmail: string, notifier: NotificationService)
      requires notifier.Valid()
      modifies this, notifier
      ensures reloadEmail == "" ==> state == old(state)
      ensures reloadEmail != "" ==> state == old(state).(loading := true, error := None)
      ensures notifier.Valid()
      ensures notifier.notifications == old(notifier.notifications) +
        [Notification(IdFor(old(notifier.nextId)), Success, None, AddedMessage(item), 3000)]
    {
      LoadCustomer(reloadEmail);
      notifier.ShowSuccess(AddedMessage(item), None, None);
    }

    /** `updateAddress`, `updateCreditCard`, `deleteAddress` and `deleteCreditCard` start unconditionally. */
    method StartChange()
      modifies this
      ensures state == old(state).(loading := true, error := None)
    {
      SetState(Started);
    }

    /**
     * An update succeeded: the current customer is reloaded when it has an
     * e-mail, and the update announced either way.
     */
    method OnUpdateSuccess(item: Item, notifier: NotificationService)
      requires notifier.Valid()
      modifies this, notifier
      ensures CustomerEmail(old(state)) == "" ==> state == old(state)
      ensures CustomerEmail(old(state)) != "" ==> state == old(state).(loading := true, error := None)
      ensures notifier.Valid()
      ensures notifier.notifications == old(notifier.notifications) +
        [Notification(IdFor(old(notifier.nextId)), Success, None, UpdatedMessage(item), 3000)]
    {
      if state.customer.Some? && state.customer.value.email.Some? && state.customer.value.email.value != "" {
        LoadCustomer(state.customer.value.email.value);
      }
      notifier.ShowSuccess(UpdatedMessage(item), None, None);
    }

    /**
     * `deleteAddress` succeeded: when the stored customer has an address list,
     * the addresses with that identifier are dropped, loading ends and the
     * deletion is announced; otherwise nothing happens, and the store stays
     * loading.
     */
    method OnDeleteAddressSuccess(addressId: string, notifier: NotificationService)
      requires notifier.Valid()
      modifies this, notifier
      ensures notifier.Valid()
      ensures old(state).customer.Some? && old(state).customer.value.addresses.Some? ==>
        var c := old(state).customer.value;
        && state == old(state).(customer := Some(c.(addresses := Some(AddressesWithout(c.addresses.value, addressId)))), loading := false)
        && notifier.notifications == old(notifier.notifications) +
          [Notification(IdFor(old(notifier.nextId)), Success, None, "Address deleted successfully", 3000)]
      ensures !(old(state).customer.Some? && old(state).customer.value.addresses.Some?) ==>
        state == old(state) && notifier.notifications == old(notifier.notifications)
    {
      if state.customer.Some? && state.customer.value.addresses.Some? {
        var c := state.customer.value;
        SetState(Stored(Some(c.(addresses := Some(AddressesWithout(c.addresses.value, addressId))))));
        notifier.ShowSuccess("Address deleted successfully", None, None);
      }
    }

    /** `deleteCreditCard` succeeded: as for addresses, with the card list. */
    method OnDeleteCreditCardSuccess(cardId: string, notifier: NotificationService)
      requires notifier.Valid()
      modifies this, notifier
      ensures notifier.Valid()
      ensures old(state).customer.Some? && old(state).customer.value.creditCards.Some? ==>
        var c := old(state).customer.value;
        && state == old(state).(customer := Some(c.(creditCards := Some(CardsWithout(c.creditCards.value, cardId)))), loading := false)
        && notifier.notifications == old(notifier.notifications) +
          [Notification(IdFor(old(notifier.nextId)), Success, None, "Credit card deleted successfully", 3000)]
      ensures !(old(state).customer.Some? && old(state).customer.value.creditCards.Some?) ==>
        state == old(state) && notifier.notifications == old(notifier.notifications)
    {
      if state.customer.Some? && state.customer.value.creditCards.Some? {
        var c := state.customer.value;
        SetState(Stored(Some(c.(creditCards := Some(CardsWithout(c.creditCards.value, cardId))))));
        notifier.ShowSuccess("Credit card deleted successfully", None, None);
      }
    }

    /** Any failure of the service: loading ends and the action's message is kept as the error. */
    method OnFailure(action: Action)
      modifies this
      ensures state == old(state).(loading := false, error := Some(FailureMessage(action)))
    {
      SetState(Failed(FailureMessage(action)));
    }

    /** `clearError`: the error goes, nothing else changes. */
    method ClearError()
      modifies this
      ensures state == old(state).(error := None)
    {
      SetState(CustomerPatch(None, None, Some(None)));
    }
  }
}
