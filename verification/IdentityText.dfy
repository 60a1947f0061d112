/** Source identities as the text the identity map stores. */
module IdentityText {
  import opened Wrappers
  import opened JsonText
  import E = ActionEntity

  datatype Part = Boolean(truth: bool) | Integer(number: int) | Text(text: string) | Missing

  datatype SourceIdentity = One(part: Part) | Tuple(parts: seq<Part>)

  /** A boolean is the integer it counts as. */
  function NormalPart(part: Part): Part {
    if part.Boolean? then Integer(if part.truth then 1 else 0) else part
  }

  function Normal(x: SourceIdentity): SourceIdentity {
    match x
    case One(part) => One(NormalPart(part))
    case Tuple(parts) => Tuple(seq(|parts|, i requires 0 <= i < |parts| => NormalPart(parts[i])))
  }

  // ---------- writing ----------

  function PartJson(part: Part): (j: Json)
    ensures Printable(j)
  {
    match part
    case Boolean(truth) => Arr([Str("integer"), Int(if truth then 1 else 0)])
    case Integer(n) => Arr([Str("integer"), Int(n)])
    case Text(text) => Arr([Str("text"), Str(text)])
    case Missing => Arr([Str("null"), Null])
  }

  function PartsJson(parts: seq<Part>): (j: Json)
    ensures Printable(j) && j.Arr?
  {
    Arr(seq(|parts|, i requires 0 <= i < |parts| => PartJson(parts[i])))
  }

  function IdentityJson(x: SourceIdentity): (j: Json)
    ensures Printable(j)
  {
    match x
    case One(part) => PartJson(part)
    case Tuple(parts) =>
      var tuple := [Str("tuple"), PartsJson(parts)];
      assert forall i | 0 <= i < |tuple| :: Printable(tuple[i]);
      Arr(tuple)
  }

  function Identity(x: SourceIdentity): string { Print(IdentityJson(x)) }

  // ---------- reading ----------

  function ReadPart(j: Json): Result<Part> {
    if !(j.Arr? && |j.items| == 2 && j.items[0].Str?) then Failure
    else if j.items[0].text == "integer" && j.items[1].Int? then Success(Integer(j.items[1].number))
    else if j.items[0].text == "text" && j.items[1].Str? then Success(Text(j.items[1].text))
    else if j.items[0].text == "null" then Success(Missing)
    else Failure
  }

  function ReadParts(items: seq<Json>): Result<seq<Part>> {
    if items == [] then Success([])
    else
      match (ReadPart(items[0]), ReadParts(items[1..]))
      case (Success(part), Success(parts)) => Success([part] + parts)
      case _ => Failure
  }

  function IdentityOf(j: Json): Result<SourceIdentity> {
    if !(j.Arr? && |j.items| > 0) then Failure
    else if j.items[0] == Str("tuple") then
      if !(|j.items| > 1 && j.items[1].Arr?) then Failure
      else
        var parts := ReadParts(j.items[1].items);
        if parts.Failure? then Failure else Success(Tuple(parts.value))
    else
      var part := ReadPart(j);
      if part.Failure? then Failure else Success(One(part.value))
  }

  function IdentityValue(text: string): Result<SourceIdentity> {
    var j := Loads(text);
    if j.None? then Failure else IdentityOf(j.value)
  }

  // ---------- nothing is lost ----------

  lemma PartBack(part: Part)
    ensures ReadPart(PartJson(part)) == Success(NormalPart(part)) && PartJson(part).items[0] != Str("tuple")
  {
  }

  lemma {:induction false} PartsBack(parts: seq<Part>)
    ensures ReadParts(PartsJson(parts).items) == Success(seq(|parts|, i requires 0 <= i < |parts| => NormalPart(parts[i])))
  {
    var items, back := PartsJson(parts).items, seq(|parts|, i requires 0 <= i < |parts| => NormalPart(parts[i]));
    if parts == [] {
      assert items == [] && back == [];
    } else {
      PartsBack(parts[1..]);
      PartBack(parts[0]);
      assert items[1..] == PartsJson(parts[1..]).items;
      hide ReadPart;
      hide PartJson;
      hide NormalPart;
      assert back[1..] == seq(|parts[1..]|, i requires 0 <= i < |parts[1..]| => NormalPart(parts[1..][i]));
      assert back == [NormalPart(parts[0])] + back[1..];
      assert ReadPart(items[0]) == Success(NormalPart(parts[0]));
      assert ReadParts(items[1..]) == Success(back[1..]);
    }
  }

  lemma IdentityBack(x: SourceIdentity)
    ensures IdentityValue(Identity(x)) == Success(Normal(x))
  {
    DocumentBack(IdentityJson(x));
    JsonBack(x);
    hide *;
    IdentityIs(x);
  }

  lemma IdentityIs(x: SourceIdentity)
    ensures Identity(x) == Print(IdentityJson(x))
    ensures IdentityValue(Identity(x)) == (if Loads(Identity(x)).None? then Failure else IdentityOf(Loads(Identity(x)).value))
  {
  }

  lemma JsonBack(x: SourceIdentity)
    ensures IdentityOf(IdentityJson(x)) == Success(Normal(x))
  {
    match x
    case One(part) =>
      PartBack(part);
      hide ReadPart;
      hide NormalPart;
    case Tuple(parts) =>
      PartsBack(parts);
      hide ReadParts;
      hide PartsJson;
  }

  /** Different identities have different texts: 1, "1" and the one-tuple of 1 are told apart. */
  lemma IdentityInjective(x: SourceIdentity, y: SourceIdentity)
    requires Identity(x) == Identity(y)
    ensures Normal(x) == Normal(y)
  {
    IdentityBack(x);
    IdentityBack(y);
  }

  // ---------- the keys of the identity map ----------

  /** The identities the families use, as the values that are printed. */
  function SourceOf(x: E.Identity): SourceIdentity {
    match x
    case IntegerId(n) => One(Integer(n))
    case TextId(text) => One(Text(text))
    case TextPair(channel, key) => Tuple([Text(channel), Text(key)])
    case IntegerPair(first, second) => Tuple([Integer(first), Integer(second)])
  }

  /** A stored text is read back as the identity it was printed from. */
  lemma KeyBack(x: E.Identity)
    ensures IdentityValue(Identity(SourceOf(x))) == Success(SourceOf(x))
  {
    IdentityBack(SourceOf(x));
    hide IdentityValue;
    hide Identity;
    assert Normal(SourceOf(x)) == SourceOf(x);
  }

  /** Two rows of the map clash as texts exactly when their identities are the same. */
  lemma KeysClashIff(x: E.Identity, y: E.Identity)
    ensures Identity(SourceOf(x)) == Identity(SourceOf(y)) <==> x == y
  {
    KeyBack(x);
    KeyBack(y);
    hide Identity;
    hide IdentityValue;
    PartsDiffer(x, y);
    hide SourceOf;
  }

  lemma PartsDiffer(x: E.Identity, y: E.Identity)
    ensures SourceOf(x) == SourceOf(y) ==> x == y
  {
    if SourceOf(x) == SourceOf(y) && SourceOf(x).Tuple? {
      assert SourceOf(x).parts[0] == SourceOf(y).parts[0] && SourceOf(x).parts[1] == SourceOf(y).parts[1];
    }
  }

  type Printed = map<(E.Family, string), E.Mapped>

  /** The stored map holds the same rows under printed keys. */
  ghost predicate Prints(stored: Printed, ids: E.Identities) {
    && (forall k | k in ids :: (k.0, Identity(SourceOf(k.1))) in stored && stored[(k.0, Identity(SourceOf(k.1)))] == ids[k])
    && (forall p | p in stored :: exists k :: k in ids && p == (k.0, Identity(SourceOf(k.1))))
  }

  /** A printed key is taken exactly when the identity is, and a new row keeps the two maps together. */
  lemma MapIdentityPrints(stored: Printed, ids: E.Identities, family: E.Family, identity: E.Identity, mapped: E.Mapped)
    requires Prints(stored, ids)
    ensures (family, Identity(SourceOf(identity))) in stored <==> (family, identity) in ids
    ensures (family, identity) !in ids ==>
      Prints(stored[(family, Identity(SourceOf(identity))) := mapped], ids[(family, identity) := mapped])
  {
    forall x: E.Identity ensures Identity(SourceOf(x)) == Identity(SourceOf(identity)) <==> x == identity {
      KeysClashIff(x, identity);
    }
    hide Identity;
    hide SourceOf;
    var printed := (family, Identity(SourceOf(identity)));
    if printed in stored {
      var k :| k in ids && printed == (k.0, Identity(SourceOf(k.1)));
      assert k == (family, identity);
    }
    if (family, identity) !in ids {
      var stored', ids' := stored[printed := mapped], ids[(family, identity) := mapped];
      forall p | p in stored' ensures exists k :: k in ids' && p == (k.0, Identity(SourceOf(k.1))) {
        if p == printed {
          assert (family, identity) in ids';
        } else {
          var k :| k in ids && p == (k.0, Identity(SourceOf(k.1)));
          assert k in ids';
        }
      }
    }
  }
}
