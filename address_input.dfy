/**
 * The address picker of the checkout: saved address cards, the initial default selection,
 * the "Add New Address" card and the new-address form. What the picker reports to its
 * parent is returned by each handler.
 */
module AddressInput {
  import opened Wrappers
  import opened Forms

  datatype Address = Address(
    id: string, userId: string, name: string, street: string, city: string,
    state: string, postalCode: string, phone: string, isDefault: bool)

  /** What `onAddressSelect` receives: a saved address, null, or the typed fields. */
  datatype Reported = SavedAddress(address: Address) | NoAddress | TypedAddress(fields: map<string, string>)

  const NewAddressFields: seq<string> := ["name", "street", "city", "state", "postal_code", "phone"]

  /** `savedAddresses.find(addr => addr.is_default)`. */
  function FindDefault(saved: seq<Address>): (r: Option<Address>)
    ensures r.None? <==> forall k :: 0 <= k < |saved| ==> !saved[k].isDefault
    ensures r.Some? ==> exists k :: 0 <= k < |saved| && saved[k] == r.value && r.value.isDefault
                                    && forall j :: 0 <= j < k ==> !saved[j].isDefault
  {
    if saved == [] then None
    else if saved[0].isDefault then Some(saved[0])
    else
      var r := FindDefault(saved[1..]);
      if r.Some? then
        var k :| 0 <= k < |saved[1..]| && saved[1..][k] == r.value && r.value.isDefault
                 && forall j :: 0 <= j < k ==> !saved[1..][j].isDefault;
        assert saved[k + 1] == r.value;
        r
      else r
  }

  /** `savedAddresses.find(addr => addr.id === id)`. */
  function FindAddress(saved: seq<Address>, id: string): (r: Option<Address>)
    ensures r.None? <==> forall k :: 0 <= k < |saved| ==> saved[k].id != id
    ensures r.Some? ==> exists k :: 0 <= k < |saved| && saved[k] == r.value && r.value.id == id
                                    && forall j :: 0 <= j < k ==> saved[j].id != id
  {
    if saved == [] then None
    else if saved[0].id == id then Some(saved[0])
    else
      var r := FindAddress(saved[1..], id);
      if r.Some? then
        var k :| 0 <= k < |saved[1..]| && saved[1..][k] == r.value && r.value.id == id
                 && forall j :: 0 <= j < k ==> saved[1..][j].id != id;
        assert saved[k + 1] == r.value;
        r
      else r
  }

  /**
   * The initial selection: the first default address's id, falling back to the first saved
   * address's id when there is no default or its id is the empty string (`?.id || …`).
   */
  function InitialSelection(saved: seq<Address>): Option<string> {
    if |saved| == 0 then None
    else
      var d := FindDefault(saved);
      if d.Some? && d.value.id != "" then Some(d.value.id) else Some(saved[0].id)
  }

  /** The form is visible when asked for, and always when nothing is saved. */
  predicate FormVisible(saved: seq<Address>, showNewAddressForm: bool) {
    showNewAddressForm || |saved| == 0
  }

  /**
   * Nothing is selected exactly when nothing is saved; otherwise the selection is the id of
   * a saved address: the first default one, or the first one when no default exists.
   */
  lemma InitialSelectionSpec(saved: seq<Address>)
    ensures InitialSelection(saved).None? <==> saved == []
    ensures InitialSelection(saved).Some? ==>
              exists k :: 0 <= k < |saved| && saved[k].id == InitialSelection(saved).value
    ensures (forall k :: 0 <= k < |saved| ==> !saved[k].isDefault) && saved != [] ==>
              InitialSelection(saved) == Some(saved[0].id)
    ensures forall k :: 0 <= k < |saved| && saved[k].isDefault && saved[k].id != ""
                        && (forall j :: 0 <= j < k ==> !saved[j].isDefault)
                        ==> InitialSelection(saved) == Some(saved[k].id)
  {
    var d := FindDefault(saved);
    if d.Some? {
      var m :| 0 <= m < |saved| && saved[m] == d.value && d.value.isDefault
               && forall j :: 0 <= j < m ==> !saved[j].isDefault;
      forall k | 0 <= k < |saved| && saved[k].isDefault && saved[k].id != ""
                 && (forall j :: 0 <= j < k ==> !saved[j].isDefault)
        ensures InitialSelection(saved) == Some(saved[k].id)
      {
        assert k == m;
      }
    }
  }

  /** The address picker's state. */
  class AddressPicker {
    const saved: seq<Address>
    var selectedAddressId: Option<string>
    var showNewAddressForm: bool
    var newAddress: map<string, string>

    constructor (savedAddresses: seq<Address>)
      ensures saved == savedAddresses
      ensures selectedAddressId == InitialSelection(savedAddresses)
      ensures showNewAddressForm <==> savedAddresses == []
      ensures newAddress == EmptyForm(NewAddressFields)
    {
      saved := savedAddresses;
      selectedAddressId := InitialSelection(savedAddresses);
      showNewAddressForm := |savedAddresses| == 0;
      newAddress := EmptyForm(NewAddressFields);
    }

    /** `handleChange`. */
    method HandleChange(name: string, value: string)
      modifies this
      ensures newAddress == ChangeField(old(newAddress), name, value)
      ensures selectedAddressId == old(selectedAddressId) && showNewAddressForm == old(showNewAddressForm)
    {
      newAddress := ChangeField(newAddress, name, value);
    }

    /** `handleSelectAddress(id)`: selects the card, hides the form, reports the saved address. */
    method HandleSelectAddress(id: string) returns (reported: Reported)
      modifies this
      ensures selectedAddressId == Some(id) && !showNewAddressForm && newAddress == old(newAddress)
      ensures FindAddress(saved, id).Some? ==> reported == SavedAddress(FindAddress(saved, id).value) && reported.address.id == id
      ensures FindAddress(saved, id).None? ==> reported == NoAddress
    {
      selectedAddressId := Some(id);
      showNewAddressForm := false;
      var found := FindAddress(saved, id);
      reported := if found.Some? then SavedAddress(found.value) else NoAddress;
    }

    /** `handleNewAddressClick`: clears the selection, shows the form, reports null. */
    method HandleNewAddressClick() returns (reported: Reported)
      modifies this
      ensures selectedAddressId.None? && showNewAddressForm && FormVisible(saved, showNewAddressForm)
      ensures reported == NoAddress && newAddress == old(newAddress)
    {
      selectedAddressId := None;
      showNewAddressForm := true;
      reported := NoAddress;
    }

    /**
     * Submitting the new-address form, which is rendered only while visible: the browser lets
     * it through only when the six required inputs hold text, and `handleSubmit` then reports
     * the typed fields. `None` means that nothing is reported; the picker's state is unchanged.
     */
    method HandleSubmit() returns (reported: Option<Reported>)
      ensures reported.Some? <==> FormVisible(saved, showNewAddressForm) && AllFilled(newAddress, NewAddressFields)
      ensures reported.Some? ==> reported.value == TypedAddress(newAddress)
    {
      if FormVisible(saved, showNewAddressForm) && AllFilled(newAddress, NewAddressFields) {
        reported := Some(TypedAddress(newAddress));
      } else {
        reported := None;
      }
    }
  }
}
