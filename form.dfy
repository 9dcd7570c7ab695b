/**
 * The edit operations of the document form. Each one builds a new document
 * record from the old one (spread, filter, find); the list of saved parties is the
 * form's own state and is kept in `PartyStore`.
 *
 * Field names the form passes as strings are constructors here: `TextField` for
 * `updateData`, `PartyField` for `updatePartyData` (its two dotted paths
 * 'representative.name' and 'representative.position' are `RepresentativeName` and
 * `RepresentativePosition`), `ItemEdit` for `updateItemData`.
 */
module Form {
  import opened Basics
  import opened Document

  datatype Side = Handover | Receiving

  function Other(side: Side): Side {
    if side == Handover then Receiving else Handover
  }

  function PartyOf(d: DocumentData, side: Side): Party {
    if side == Handover then d.handoverParty else d.receivingParty
  }

  function WithParty(d: DocumentData, side: Side, p: Party): DocumentData {
    if side == Handover then d.(handoverParty := p) else d.(receivingParty := p)
  }

  datatype TextField = Title | Date | Location | ActNumber | CompanyLogo | ContractReference
                     | Warranty | Documents | SpecialConditions | Responsibility

  function TextOf(d: DocumentData, f: TextField): string {
    match f
    case Title => d.title
    case Date => d.date
    case Location => d.location
    case ActNumber => d.actNumber
    case CompanyLogo => d.companyLogo
    case ContractReference => d.contractReference
    case Warranty => d.warranty
    case Documents => d.documents
    case SpecialConditions => d.specialConditions
    case Responsibility => d.responsibility
  }

  /** The top-level pieces of a document record, one per field. */
  datatype Part = TextPart(field: TextField) | PartyPart(side: Side) | ItemsPart | AttachmentsPart | SignaturePart

  predicate Agree(d: DocumentData, r: DocumentData, p: Part) {
    match p
    case TextPart(f) => TextOf(r, f) == TextOf(d, f)
    case PartyPart(side) => PartyOf(r, side) == PartyOf(d, side)
    case ItemsPart => r.items == d.items
    case AttachmentsPart => r.attachments == d.attachments
    case SignaturePart => r.useElectronicSignature == d.useElectronicSignature
  }

  /** r differs from d at most in the piece `except`. */
  ghost predicate OnlyChanged(d: DocumentData, r: DocumentData, except: Part) {
    forall p :: p != except ==> Agree(d, r, p)
  }

  /** The pieces cover the whole record: agreeing on all of them is equality. */
  lemma AgreeEverywhere(d: DocumentData, r: DocumentData)
    requires forall p :: Agree(d, r, p)
    ensures d == r
  {
    assert Agree(d, r, TextPart(Title)) && Agree(d, r, TextPart(Date)) && Agree(d, r, TextPart(Location));
    assert Agree(d, r, TextPart(ActNumber)) && Agree(d, r, TextPart(CompanyLogo));
    assert Agree(d, r, TextPart(ContractReference)) && Agree(d, r, TextPart(Warranty));
    assert Agree(d, r, TextPart(Documents)) && Agree(d, r, TextPart(SpecialConditions));
    assert Agree(d, r, TextPart(Responsibility));
    assert Agree(d, r, PartyPart(Handover)) && Agree(d, r, PartyPart(Receiving));
    assert Agree(d, r, ItemsPart) && Agree(d, r, AttachmentsPart) && Agree(d, r, SignaturePart);
  }

  datatype DataEdit = SetText(field: TextField, value: string)
                    | SetParty(side: Side, party: Party)
                    | SetElectronicSignature(on: bool)

  function EditedPart(e: DataEdit): Part {
    match e
    case SetText(f, _) => TextPart(f)
    case SetParty(side, _) => PartyPart(side)
    case SetElectronicSignature(_) => SignaturePart
  }

  /** `updateData(field, value)`: the named field takes the value, nothing else changes. */
  function UpdateData(d: DocumentData, e: DataEdit): (r: DocumentData)
    ensures OnlyChanged(d, r, EditedPart(e))
    ensures e.SetText? ==> TextOf(r, e.field) == e.value
    ensures e.SetParty? ==> PartyOf(r, e.side) == e.party
    ensures e.SetElectronicSignature? ==> r.useElectronicSignature == e.on
  {
    match e
    case SetText(f, v) =>
      (match f
       case Title => d.(title := v)
       case Date => d.(date := v)
       case Location => d.(location := v)
       case ActNumber => d.(actNumber := v)
       case CompanyLogo => d.(companyLogo := v)
       case ContractReference => d.(contractReference := v)
       case Warranty => d.(warranty := v)
       case Documents => d.(documents := v)
       case SpecialConditions => d.(specialConditions := v)
       case Responsibility => d.(responsibility := v))
    case SetParty(side, p) => WithParty(d, side, p)
    case SetElectronicSignature(on) => d.(useElectronicSignature := on)
  }

  datatype PartyField = Name | RegistrationNumber | Address | RepresentativeName | RepresentativePosition

  function PartyText(p: Party, f: PartyField): string {
    match f
    case Name => p.name
    case RegistrationNumber => p.registrationNumber
    case Address => p.address
    case RepresentativeName => p.representative.name
    case RepresentativePosition => p.representative.position
  }

  lemma PartyTextEverywhere(p: Party, q: Party)
    requires forall f :: PartyText(p, f) == PartyText(q, f)
    ensures p == q
  {
    assert PartyText(p, Name) == PartyText(q, Name);
    assert PartyText(p, RegistrationNumber) == PartyText(q, RegistrationNumber);
    assert PartyText(p, Address) == PartyText(q, Address);
    assert PartyText(p, RepresentativeName) == PartyText(q, RepresentativeName);
    assert PartyText(p, RepresentativePosition) == PartyText(q, RepresentativePosition);
  }

  /** `updatePartyData(party, field, value)`: a plain field is replaced in the chosen
      party; a dotted path replaces one field of the nested representative and keeps
      its sibling. The other party and the rest of the record stay as they were. */
  function UpdatePartyData(d: DocumentData, side: Side, f: PartyField, v: string): (r: DocumentData)
    ensures OnlyChanged(d, r, PartyPart(side))
    ensures PartyText(PartyOf(r, side), f) == v
    ensures forall g :: g != f ==> PartyText(PartyOf(r, side), g) == PartyText(PartyOf(d, side), g)
  {
    var p := PartyOf(d, side);
    var q := match f
      case Name => p.(name := v)
      case RegistrationNumber => p.(registrationNumber := v)
      case Address => p.(address := v)
      case RepresentativeName => p.(representative := p.representative.(name := v))
      case RepresentativePosition => p.(representative := p.representative.(position := v));
    WithParty(d, side, q)
  }

  datatype ItemTextField = ItemName | Manufacturer | Model | SerialNumber | Components | Condition | Defects

  function ItemText(it: Item, f: ItemTextField): string {
    match f
    case ItemName => it.name
    case Manufacturer => it.manufacturer
    case Model => it.model
    case SerialNumber => it.serialNumber
    case Components => it.components
    case Condition => it.condition
    case Defects => it.defects
  }

  datatype ItemEdit = SetItemText(field: ItemTextField, value: string) | SetQuantity(quantity: int)

  /** `updateItemData(index, field, value)`: the list keeps its length and only the
      named field of item `index` differs. The form calls it only with the index of
      an item it is showing. */
  function UpdateItemData(d: DocumentData, i: int, e: ItemEdit): (r: DocumentData)
    requires 0 <= i < |d.items|
    ensures OnlyChanged(d, r, ItemsPart)
    ensures |r.items| == |d.items|
    ensures forall j :: 0 <= j < |d.items| && j != i ==> r.items[j] == d.items[j]
    ensures e.SetItemText? ==> ItemText(r.items[i], e.field) == e.value && r.items[i].quantity == d.items[i].quantity
    ensures e.SetQuantity? ==> r.items[i].quantity == e.quantity
    ensures forall g :: (e.SetQuantity? || g != e.field) ==> ItemText(r.items[i], g) == ItemText(d.items[i], g)
  {
    var it := d.items[i];
    var it' := match e
      case SetQuantity(q) => it.(quantity := q)
      case SetItemText(f, v) =>
        (match f
         case ItemName => it.(name := v)
         case Manufacturer => it.(manufacturer := v)
         case Model => it.(model := v)
         case SerialNumber => it.(serialNumber := v)
         case Components => it.(components := v)
         case Condition => it.(condition := v)
         case Defects => it.(defects := v));
    d.(items := d.items[i := it'])
  }

  /** `addItem`: one blank item at the end; the existing items keep order and values. */
  function AddItem(d: DocumentData): (r: DocumentData)
    ensures OnlyChanged(d, r, ItemsPart)
    ensures |r.items| == |d.items| + 1 && r.items[..|d.items|] == d.items
    ensures IsBlankItem(r.items[|d.items|])
  {
    d.(items := d.items + [BlankItem()])
  }

  /** `items.filter((_, i) => i !== index)`, walking the list the way `filter` does. */
  function RemoveAt<T>(s: seq<T>, index: int): (r: seq<T>)
    ensures 0 <= index < |s| ==> r == s[..index] + s[index + 1..]
    ensures !(0 <= index < |s|) ==> r == s
    decreases |s|
  {
    if s == [] then []
    else (if index == 0 then [] else [s[0]]) + RemoveAt(s[1..], index - 1)
  }

  /** `removeItem(index)`: exactly the element at `index` goes, the rest keep their order. */
  function RemoveItem(d: DocumentData, index: int): (r: DocumentData)
    ensures OnlyChanged(d, r, ItemsPart)
    ensures 0 <= index < |d.items| ==>
      |r.items| == |d.items| - 1 &&
      (forall j :: 0 <= j < index ==> r.items[j] == d.items[j]) &&
      (forall j :: index <= j < |r.items| ==> r.items[j] == d.items[j + 1])
    ensures !(0 <= index < |d.items|) ==> r == d
  {
    d.(items := RemoveAt(d.items, index))
  }

  /** The party fields of a saved entry, without its id and creation time. */
  function StripSaved(sp: SavedParty): Party {
    Party(sp.name, sp.registrationNumber, sp.address, sp.representative)
  }

  /** `{ id, ...party, createdAt }`. */
  function ToSaved(p: Party, id: string, createdAt: string): (sp: SavedParty)
    ensures sp.id == id && sp.createdAt == createdAt
    ensures StripSaved(sp) == p
  {
    SavedParty(id, p.name, p.registrationNumber, p.address, p.representative, createdAt)
  }

  /** `savedParties.find(p => p.id === id)`. */
  function FindById(saved: seq<SavedParty>, id: string): (r: Option<nat>)
    ensures r.Some? ==> r.value < |saved| && saved[r.value].id == id &&
                        forall k :: 0 <= k < r.value ==> saved[k].id != id
    ensures r.None? ==> forall k :: 0 <= k < |saved| ==> saved[k].id != id
    decreases |saved|
  {
    if saved == [] then None
    else if saved[0].id == id then Some(0)
    else match FindById(saved[1..], id)
      case None => None
      case Some(k) => Some(k + 1)
  }

  /** `loadSavedParty(id, type)`: the first entry with that id, stripped of id and
      creation time, replaces the chosen party; an unknown id changes nothing. */
  function LoadSavedParty(d: DocumentData, saved: seq<SavedParty>, id: string, side: Side): (r: DocumentData)
    ensures (exists k :: 0 <= k < |saved| && saved[k].id == id) ==>
      exists k :: 0 <= k < |saved| && saved[k].id == id &&
        (forall j :: 0 <= j < k ==> saved[j].id != id) &&
        r == UpdateData(d, SetParty(side, StripSaved(saved[k])))
    ensures (forall k :: 0 <= k < |saved| ==> saved[k].id != id) ==> r == d
  {
    match FindById(saved, id)
    case None => d
    case Some(k) => UpdateData(d, SetParty(side, StripSaved(saved[k])))
  }

  /** `savedParties.filter(p => p.id !== id)`. */
  function WithoutId(saved: seq<SavedParty>, id: string): (r: seq<SavedParty>)
    ensures |r| <= |saved|
    ensures forall k :: 0 <= k < |r| ==> r[k].id != id && r[k] in saved
    ensures forall k :: 0 <= k < |saved| && saved[k].id != id ==> saved[k] in r
    decreases |saved|
  {
    if saved == [] then []
    else (if saved[0].id == id then [] else [saved[0]]) + WithoutId(saved[1..], id)
  }

  /** Deleting keeps the other entries in their order: it distributes over concatenation. */
  lemma {:induction false} WithoutIdAppend(a: seq<SavedParty>, b: seq<SavedParty>, id: string)
    ensures WithoutId(a + b, id) == WithoutId(a, id) + WithoutId(b, id)
    decreases |a|
  {
    if a != [] {
      assert (a + b)[1..] == a[1..] + b;
      WithoutIdAppend(a[1..], b, id);
    } else {
      assert a + b == b;
    }
  }

  /** With no entry carrying the id, deleting it changes nothing. */
  lemma {:induction false} WithoutAbsentId(saved: seq<SavedParty>, id: string)
    requires forall k :: 0 <= k < |saved| ==> saved[k].id != id
    ensures WithoutId(saved, id) == saved
    decreases |saved|
  {
    if saved != [] {
      WithoutAbsentId(saved[1..], id);
    }
  }

  /** Saving a party under a fresh id and loading that id gives the party back. */
  lemma SaveThenLoad(d: DocumentData, saved: seq<SavedParty>, p: Party, id: string, createdAt: string, side: Side)
    requires forall k :: 0 <= k < |saved| ==> saved[k].id != id
    ensures PartyOf(LoadSavedParty(d, saved + [ToSaved(p, id, createdAt)], id, side), side) == p
  {
    var s := saved + [ToSaved(p, id, createdAt)];
    assert s[|saved|].id == id;
    var k :| 0 <= k < |s| && s[k].id == id &&
      (forall j :: 0 <= j < k ==> s[j].id != id) &&
      LoadSavedParty(d, s, id, side) == UpdateData(d, SetParty(side, StripSaved(s[k])));
    assert k == |saved|;
  }

  /** Deleting an id leaves nothing that can be loaded under it. */
  lemma DeleteThenLoad(d: DocumentData, saved: seq<SavedParty>, id: string, side: Side)
    ensures LoadSavedParty(d, WithoutId(saved, id), id, side) == d
  {
  }

  /** The saved-parties list; `localStorage` mirroring is not modelled. */
  class PartyStore {
    var saved: seq<SavedParty>

    /** `useState([])` followed by the restore from storage, given as `initial`. */
    constructor (initial: seq<SavedParty>)
      ensures saved == initial
    {
      saved := initial;
    }

    /** `saveParty(type)`: nothing happens for a party without a name; otherwise one
        entry with the party's fields, the given id and creation time is appended. */
    method SaveParty(d: DocumentData, side: Side, id: string, createdAt: string)
      modifies this
      ensures PartyOf(d, side).name == "" ==> saved == old(saved)
      ensures PartyOf(d, side).name != "" ==> saved == old(saved) + [ToSaved(PartyOf(d, side), id, createdAt)]
    {
      var party := PartyOf(d, side);
      if party.name == "" {
        return;
      }
      var entry := ToSaved(party, id, createdAt);
      saved := saved + [entry];
    }

    /** `deleteSavedParty(id)`: every entry with that id goes, the others keep their order. */
    method DeleteSavedParty(id: string)
      modifies this
      ensures saved == WithoutId(old(saved), id)
    {
      saved := WithoutId(saved, id);
    }
  }

  // ---------------------------------------------------------------------------
  // The quantity field: `parseInt(e.target.value) || 1`.

  /** The value of c as a digit in base 10 or 16 (either case). */
  function DigitIn(c: char, radix: nat): Option<nat> {
    if '0' <= c <= '9' then Some(c as int - '0' as int)
    else if radix == 16 && 'a' <= c <= 'f' then Some(c as int - 'a' as int + 10)
    else if radix == 16 && 'A' <= c <= 'F' then Some(c as int - 'A' as int + 10)
    else None
  }

  predicate AllDigitsIn(s: string, radix: nat) {
    forall i :: 0 <= i < |s| ==> DigitIn(s[i], radix).Some?
  }

  /** The longest prefix of s made of digits. */
  function DigitRun(s: string, radix: nat): (r: string)
    ensures r <= s && AllDigitsIn(r, radix)
    ensures |r| < |s| ==> DigitIn(s[|r|], radix).None?
    decreases |s|
  {
    if s != [] && DigitIn(s[0], radix).Some? then [s[0]] + DigitRun(s[1..], radix) else []
  }

  function RadixValue(s: string, radix: nat): nat
    requires AllDigitsIn(s, radix)
  {
    if s == [] then 0 else radix * RadixValue(s[..|s| - 1], radix) + DigitIn(s[|s| - 1], radix).value
  }

  /** `parseInt(s)` without a radix: skip leading white space, take one sign, read a
      hexadecimal number after "0x"/"0X" and a decimal one otherwise; None is NaN. */
  function ParseInt(s: string): Option<int> {
    var t := TrimStart(s);
    var negative := t != [] && t[0] == '-';
    var u := if t != [] && (t[0] == '-' || t[0] == '+') then t[1..] else t;
    var hex := |u| >= 2 && u[0] == '0' && (u[1] == 'x' || u[1] == 'X');
    var radix := if hex then 16 else 10;
    var digits := DigitRun(if hex then u[2..] else u, radix);
    if digits == [] then None
    else
      var v: int := RadixValue(digits, radix);
      Some(if negative then -v else v)
  }

  /** `parseInt(v) || 1`: NaN and 0 become 1, every other parsed integer is kept. */
  function QuantityInput(raw: string): (q: int)
    ensures q != 0
    ensures ParseInt(raw).Some? && ParseInt(raw).value != 0 ==> q == ParseInt(raw).value
    ensures ParseInt(raw).None? || ParseInt(raw).value == 0 ==> q == 1
  {
    match ParseInt(raw)
    case Some(n) => if n != 0 then n else 1
    case None => 1
  }

  lemma {:induction false} DecimalRadixValue(s: string)
    requires AllDigits(s)
    ensures AllDigitsIn(s, 10) && RadixValue(s, 10) == DecimalValue(s)
  {
    if s != [] {
      DecimalRadixValue(s[..|s| - 1]);
    }
  }

  lemma {:induction false} DigitRunAll(s: string, radix: nat)
    requires AllDigitsIn(s, radix)
    ensures DigitRun(s, radix) == s
    decreases |s|
  {
    if s != [] {
      DigitRunAll(s[1..], radix);
    }
  }

  /** Reading back what `String(n)` writes gives n. */
  lemma ParseIntRoundTrip(n: int)
    ensures ParseInt(IntToString(n)) == Some(n)
  {
    var s := IntToString(n);
    var m: nat := if n < 0 then -n else n;
    var digits := NatToString(m);
    assert !IsJsSpace(s[0]);
    assert SpaceEnd(s, 0) == 0;
    assert TrimStart(s) == s;
    var u := if n < 0 then s[1..] else s;
    assert u == digits;
    DecimalRadixValue(digits);
    DigitRunAll(digits, 10);
  }

  /** Typing the decimal form of a non-zero quantity stores exactly that quantity. */
  lemma QuantityRoundTrip(n: int)
    requires n != 0
    ensures QuantityInput(IntToString(n)) == n
  {
    ParseIntRoundTrip(n);
  }

  // ---------------------------------------------------------------------------
  // What the form lets a user do, and what that keeps true.

  datatype Action =
    | Edit(edit: DataEdit)
    | EditParty(side: Side, field: PartyField, value: string)
    | EditItemText(index: int, textField: ItemTextField, text: string)
    | TypeQuantity(index: int, raw: string)
    | AddItemAction
    | RemoveItemAction(index: int)
    | LoadParty(saved: seq<SavedParty>, id: string, loadSide: Side)

  /** The controls the form renders: item controls are per shown item; the delete
      button exists only while more than one item is listed. */
  predicate Offered(d: DocumentData, a: Action) {
    match a
    case EditItemText(i, _, _) => 0 <= i < |d.items|
    case TypeQuantity(i, _) => 0 <= i < |d.items|
    case RemoveItemAction(i) => |d.items| > 1 && 0 <= i < |d.items|
    case _ => true
  }

  function Apply(d: DocumentData, a: Action): DocumentData
    requires Offered(d, a)
  {
    match a
    case Edit(e) => UpdateData(d, e)
    case EditParty(side, f, v) => UpdatePartyData(d, side, f, v)
    case EditItemText(i, f, v) => UpdateItemData(d, i, SetItemText(f, v))
    case TypeQuantity(i, raw) => UpdateItemData(d, i, SetQuantity(QuantityInput(raw)))
    case AddItemAction => AddItem(d)
    case RemoveItemAction(i) => RemoveItem(d, i)
    case LoadParty(saved, id, side) => LoadSavedParty(d, saved, id, side)
  }

  /** The document after a sequence of user actions, None if one was not on offer. */
  function Replay(d: DocumentData, actions: seq<Action>): Option<DocumentData>
    decreases |actions|
  {
    if actions == [] then Some(d)
    else if Offered(d, actions[0]) then Replay(Apply(d, actions[0]), actions[1..])
    else None
  }

  /** At least one item, and no quantity of 0. */
  predicate FormInvariant(d: DocumentData) {
    |d.items| >= 1 && forall j :: 0 <= j < |d.items| ==> d.items[j].quantity != 0
  }

  lemma ApplyKeepsInvariant(d: DocumentData, a: Action)
    requires FormInvariant(d) && Offered(d, a)
    ensures FormInvariant(Apply(d, a))
  {
    match a
    case RemoveItemAction(i) =>
      var r := RemoveItem(d, i);
      forall j | 0 <= j < |r.items| ensures r.items[j].quantity != 0 {
        if j < i { assert r.items[j] == d.items[j]; } else { assert r.items[j] == d.items[j + 1]; }
      }
    case AddItemAction =>
      var r := AddItem(d);
      forall j | 0 <= j < |r.items| ensures r.items[j].quantity != 0 {
        if j < |d.items| { assert r.items[j] == r.items[..|d.items|][j]; }
      }
    case _ =>
  }

  /** Whatever the user does through the form, starting from the initial document the
      item list is never empty and no quantity is 0 (negative quantities do get through). */
  lemma {:induction false} FormKeepsItems(d: DocumentData, actions: seq<Action>)
    requires FormInvariant(d)
    ensures Replay(d, actions).Some? ==> FormInvariant(Replay(d, actions).value)
    decreases |actions|
  {
    if actions != [] && Offered(d, actions[0]) {
      ApplyKeepsInvariant(d, actions[0]);
      FormKeepsItems(Apply(d, actions[0]), actions[1..]);
    }
  }

  lemma InitialDocumentKeepsItems(today: string, actions: seq<Action>)
    ensures Replay(InitialDocument(today), actions).Some? ==>
      FormInvariant(Replay(InitialDocument(today), actions).value)
  {
    FormKeepsItems(InitialDocument(today), actions);
  }

  /** A quantity of -3 typed into the field is stored as -3. */
  lemma NegativeQuantityAccepted()
    ensures QuantityInput("-3") == -3
  {
    ParseIntRoundTrip(-3);
    assert IntToString(-3) == "-3";
  }
}
