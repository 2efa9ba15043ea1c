/**
 * The delivery-address form: the structured details filled in from a
 * geocoder result, the full address re-assembled when one detail field
 * is edited, and free typing into the full-address box. Coordinates and
 * the map widget are not part of this model.
 */
module AddressForm {
  import opened Wrappers
  import opened Seqs
  import opened Text

  /** The editable detail fields. */
  datatype Field = StreetNumber | Street | Ward | District | City

  datatype AddressDetails = AddressDetails(
    streetNumber: string, street: string, ward: string, district: string, city: string,
    fullAddress: string)
  {
    function Get(f: Field): string {
      match f
      case StreetNumber => streetNumber
      case Street => street
      case Ward => ward
      case District => district
      case City => city
    }

    function Set(f: Field, v: string): (r: AddressDetails)
      ensures r.Get(f) == v && r.fullAddress == fullAddress
      ensures forall g :: g != f ==> r.Get(g) == Get(g)
    {
      match f
      case StreetNumber => this.(streetNumber := v)
      case Street => this.(street := v)
      case Ward => this.(ward := v)
      case District => this.(district := v)
      case City => this.(city := v)
    }

    /** The five parts in the order they are written in an address. */
    function Parts(): seq<string> {
      [streetNumber, street, ward, district, city]
    }
  }

  /** One entry of a geocoder's `address_components`. */
  datatype Component = Component(types: seq<string>, longName: string)

  /** The detail a component fills, decided by its first type alone. */
  function KindOf(c: Component): (r: Option<Field>)
    ensures c.types == [] ==> r.None?
    ensures r == Some(Ward) <==> c.types != [] && c.types[0] in {"administrative_area_level_3", "sublocality"}
  {
    if c.types == [] then None
    else
      var t := c.types[0];
      if t == "street_number" then Some(StreetNumber)
      else if t == "route" then Some(Street)
      else if t == "administrative_area_level_3" || t == "sublocality" then Some(Ward)
      else if t == "administrative_area_level_2" then Some(District)
      else if t == "administrative_area_level_1" then Some(City)
      else None
  }

  /** Parsing starts from empty details and the address currently in the box. */
  function EmptyDetails(value: string): AddressDetails {
    AddressDetails("", "", "", "", "", value)
  }

  /** Applies one component to the details. */
  function ApplyComponent(d: AddressDetails, c: Component): AddressDetails {
    match KindOf(c)
    case None => d
    case Some(f) => d.Set(f, c.longName)
  }

  /** The details after applying the components in order. */
  function ParseComponents(value: string, comps: seq<Component>): (r: AddressDetails)
    ensures r.fullAddress == value
  {
    if comps == [] then EmptyDetails(value)
    else ApplyComponent(ParseComponents(value, comps[..|comps| - 1]), comps[|comps| - 1])
  }

  /** The long name of the last component of the given kind. */
  function LastOfKind(comps: seq<Component>, f: Field): (r: Option<string>)
    ensures r.None? <==> forall k :: 0 <= k < |comps| ==> KindOf(comps[k]) != Some(f)
    ensures r.Some? ==> exists k :: (0 <= k < |comps| && KindOf(comps[k]) == Some(f) && comps[k].longName == r.value &&
      forall j :: k < j < |comps| ==> KindOf(comps[j]) != Some(f))
  {
    if comps == [] then None
    else if KindOf(comps[|comps| - 1]) == Some(f) then Some(comps[|comps| - 1].longName)
    else LastOfKind(comps[..|comps| - 1], f)
  }

  /**
   * Each detail is the long name of the last component whose first type
   * maps to it, or '' when there is none: later components overwrite
   * earlier ones and other types are ignored.
   */
  lemma {:induction false} ParseTakesLast(value: string, comps: seq<Component>, f: Field)
    ensures ParseComponents(value, comps).Get(f) == LastOfKind(comps, f).GetOr("")
  {
    if comps != [] {
      ParseTakesLast(value, comps[..|comps| - 1], f);
    }
  }

  /** `parseAddressComponents`: a `forEach` that overwrites the matching field of a local record. */
  method ParseAddressComponents(value: string, comps: seq<Component>) returns (d: AddressDetails)
    ensures d == ParseComponents(value, comps)
  {
    d := EmptyDetails(value);
    var i := 0;
    while i < |comps|
      invariant 0 <= i <= |comps|
      invariant d == ParseComponents(value, comps[..i])
    {
      assert comps[..i + 1][..i] == comps[..i];
      var kind := KindOf(comps[i]);
      if kind.Some? {
        d := d.Set(kind.value, comps[i].longName);
      }
      i := i + 1;
    }
    assert comps[..|comps|] == comps;
  }

  /** The non-empty strings of `parts`, in order. */
  function Present(parts: seq<string>): (r: seq<string>)
    ensures forall x :: x in r <==> x in parts && x != ""
  {
    if parts == [] then []
    else (if parts[0] != "" then [parts[0]] else []) + Present(parts[1..])
  }

  function Keep(s: string): seq<string> {
    if s != "" then [s] else []
  }

  lemma {:induction false} PresentParts(d: AddressDetails)
    ensures Present(d.Parts()) ==
      Keep(d.streetNumber) + Keep(d.street) + Keep(d.ward) + Keep(d.district) + Keep(d.city)
  {
    var p0 := d.Parts();
    var p1 := [d.street, d.ward, d.district, d.city];
    var p2 := [d.ward, d.district, d.city];
    var p3 := [d.district, d.city];
    var p4 := [d.city];
    assert p4[1..] == [];
    assert Present(p4) == Keep(d.city);
    assert p3[1..] == p4;
    assert Present(p3) == Keep(d.district) + Present(p4);
    assert p2[1..] == p3;
    assert Present(p2) == Keep(d.ward) + Present(p3);
    assert p1[1..] == p2;
    assert Present(p1) == Keep(d.street) + Present(p2);
    assert p0[1..] == p1;
    assert Present(p0) == Keep(d.streetNumber) + Present(p1);
  }

  /** The full address the form writes: the non-empty parts, in order, joined by ', '. */
  function Assembled(d: AddressDetails): string {
    Join(Present(d.Parts()), ", ")
  }

  /** `parts.push(s)` when `s` is not empty. */
  method PushIfPresent(parts: seq<string>, s: string) returns (r: seq<string>)
    ensures r == parts + Keep(s)
  {
    r := parts;
    if s != "" {
      r := r + [s];
    }
  }

  /** `handleDetailFieldChange`: sets one field, then rebuilds the full address with `push` and `join`. */
  method DetailFieldChange(prev: AddressDetails, f: Field, v: string) returns (updated: AddressDetails)
    ensures updated.Get(f) == v
    ensures forall g :: g != f ==> updated.Get(g) == prev.Get(g)
    ensures updated.fullAddress == Assembled(updated)
  {
    var next := prev.Set(f, v);
    var parts := PushIfPresent([], next.streetNumber);
    assert parts == Keep(next.streetNumber);
    parts := PushIfPresent(parts, next.street);
    parts := PushIfPresent(parts, next.ward);
    parts := PushIfPresent(parts, next.district);
    parts := PushIfPresent(parts, next.city);
    PresentParts(next);
    updated := next.(fullAddress := Join(parts, ", "));
    assert updated.Parts() == next.Parts();
  }

  /** With every part empty the full address is ''. */
  lemma {:induction false} AllEmptyGivesEmpty(d: AddressDetails)
    requires forall g :: d.Get(g) == ""
    ensures Assembled(d) == ""
  {
    assert d.Get(StreetNumber) == "" && d.Get(Street) == "" && d.Get(Ward) == "";
    assert d.Get(District) == "" && d.Get(City) == "";
    PresentParts(d);
  }

  /** Every non-empty detail appears in the rebuilt full address. */
  lemma {:induction false} AssembledContainsParts(d: AddressDetails, g: Field)
    requires d.Get(g) != ""
    ensures Contains(Assembled(d), d.Get(g))
  {
    var parts := Present(d.Parts());
    assert d.Get(g) in d.Parts();
    assert d.Get(g) in parts;
    var k :| 0 <= k < |parts| && parts[k] == d.Get(g);
    JoinContainsParts(parts, ", ", k);
  }

  /** `handleManualInputChange`: the typed text becomes the full address and the details stay. */
  function ManualInputChange(prev: AddressDetails, typed: string): (r: AddressDetails)
    ensures r.fullAddress == typed
    ensures forall g :: r.Get(g) == prev.Get(g)
  {
    prev.(fullAddress := typed)
  }

  /** A detail edit rebuilds the full address from the parts alone, discarding text typed before it. */
  lemma {:induction false} DetailEditDiscardsTyping(prev: AddressDetails, typed: string, f: Field, v: string)
    ensures Assembled(ManualInputChange(prev, typed).Set(f, v)) == Assembled(prev.Set(f, v))
  {
    assert ManualInputChange(prev, typed).Set(f, v).Parts() == prev.Set(f, v).Parts();
  }
}
