/** The string keys the SDK builds, and exactly when two of them can collide. */
module Keys {
  /** `prefixType(type)(id)`: the stream of an aggregate, or the snapshot key of a partition. */
  function PrefixType(kind: string, id: string): string { kind + "-" + id }

  datatype SubscriptionRef = SubscriptionRef(stream: string, name: string)

  /** `refKey` in the consistency wait. */
  function RefKey(r: SubscriptionRef): string { r.stream + "::" + r.name }

  predicate IsPrefix(a: string, b: string) {
    |a| <= |b| && b[..|a|] == a
  }

  /** Ids of one type never collide. */
  lemma SameTypeInjective(kind: string, id1: string, id2: string)
    ensures PrefixType(kind, id1) == PrefixType(kind, id2) <==> id1 == id2
  {
    assert PrefixType(kind, id1)[|kind| + 1..] == id1;
    assert PrefixType(kind, id2)[|kind| + 1..] == id2;
  }

  /** Two types share a stream name for some ids if and only if one, followed by a dash, begins the other followed by a dash. */
  lemma TypesCollideIff(kind1: string, kind2: string)
    ensures (exists id1, id2 :: PrefixType(kind1, id1) == PrefixType(kind2, id2))
            <==> IsPrefix(kind1 + "-", kind2 + "-") || IsPrefix(kind2 + "-", kind1 + "-")
  {
    if id1, id2 :| PrefixType(kind1, id1) == PrefixType(kind2, id2) {
      var s := PrefixType(kind1, id1);
      assert s[..|kind1| + 1] == kind1 + "-";
      assert PrefixType(kind2, id2)[..|kind2| + 1] == kind2 + "-";
      if |kind1| <= |kind2| {
        assert s[..|kind2| + 1][..|kind1| + 1] == s[..|kind1| + 1];
      } else {
        assert s[..|kind1| + 1][..|kind2| + 1] == s[..|kind2| + 1];
      }
    }
    if IsPrefix(kind1 + "-", kind2 + "-") {
      assert PrefixType(kind1, (kind2 + "-")[|kind1| + 1..]) == PrefixType(kind2, "");
    }
    if IsPrefix(kind2 + "-", kind1 + "-") {
      assert PrefixType(kind2, (kind1 + "-")[|kind2| + 1..]) == PrefixType(kind1, "");
    }
  }

  /** No two of these types can share a stream or a snapshot row, and neither can two ids of one type. */
  ghost predicate KeysDistinct(kinds: set<string>) {
    forall kind1, kind2, id1, id2 | kind1 in kinds && kind2 in kinds && PrefixType(kind1, id1) == PrefixType(kind2, id2) ::
      kind1 == kind2 && id1 == id2
  }

  /**
   Aggregates and process managers keep their snapshots in one table, keyed like this.  No two of
   them share a row if and only if no type followed by a dash begins another followed by a dash.
   */
  lemma KeysDistinctIff(kinds: set<string>)
    ensures KeysDistinct(kinds) <==>
      forall kind1, kind2 | kind1 in kinds && kind2 in kinds && kind1 != kind2 :: !IsPrefix(kind1 + "-", kind2 + "-")
  {
    forall kind1, kind2 | kind1 in kinds && kind2 in kinds {
      TypesCollideIff(kind1, kind2);
    }
    forall kind, id1, id2 | PrefixType(kind, id1) == PrefixType(kind, id2) ensures id1 == id2 {
      SameTypeInjective(kind, id1, id2);
    }
  }

  /** The bank's two aggregates and its process manager never share a stream or a snapshot. */
  lemma BankTypesDisjoint()
    ensures KeysDistinct({"Account", "Transfer", "TransferProcessManager"})
  {
    KeysDistinctIff({"Account", "Transfer", "TransferProcessManager"});
    assert ("Account" + "-")[0] == 'A' && ("Transfer" + "-")[0] == 'T' && ("TransferProcessManager" + "-")[0] == 'T';
    assert ("Transfer" + "-")[8] == '-' && ("TransferProcessManager" + "-")[8] == 'P';
  }

  /** References whose names hold no colon have distinct keys. */
  lemma RefKeyInjective(a: SubscriptionRef, b: SubscriptionRef)
    requires ':' !in a.name && ':' !in b.name
    ensures RefKey(a) == RefKey(b) <==> a == b
  {
    if RefKey(a) == RefKey(b) {
      SameNameLength(a, b);
      SameNameLength(b, a);
      assert RefKey(a)[..|a.stream|] == a.stream && RefKey(b)[..|b.stream|] == b.stream;
      assert RefKey(a)[|a.stream| + 2..] == a.name && RefKey(b)[|b.stream| + 2..] == b.name;
    }
  }

  lemma SameNameLength(a: SubscriptionRef, b: SubscriptionRef)
    requires RefKey(a) == RefKey(b) && ':' !in b.name
    ensures |a.stream| <= |b.stream|
  {
    assert RefKey(a)[|a.stream| + 1] == ':';
    assert forall i | |b.stream| + 1 < i < |RefKey(b)| :: RefKey(b)[i] == b.name[i - |b.stream| - 2];
  }

  /** In general they collide. */
  lemma RefKeysCollide()
    ensures var a, b := SubscriptionRef("a::b", "c"), SubscriptionRef("a", "b::c"); a != b && RefKey(a) == RefKey(b)
  {
    assert RefKey(SubscriptionRef("a::b", "c")) == "a::b::c" == RefKey(SubscriptionRef("a", "b::c"));
  }

  // ---------------------------------------------------------------- pk:eventNumber

  function Digit(d: nat): char
    requires d < 10
  {
    "0123456789"[d]
  }

  /** Decimal notation, as `${n}` prints a bigint. */
  function Decimal(n: nat): (s: string)
    ensures s != "" && ':' !in s
  {
    if n < 10 then [Digit(n)] else Decimal(n / 10) + [Digit(n % 10)]
  }

  lemma {:induction false} DecimalInjective(m: nat, n: nat)
    ensures Decimal(m) == Decimal(n) ==> m == n
  {
    if Decimal(m) == Decimal(n) {
      var s := Decimal(m);
      assert s[|s| - 1] == Digit(m % 10) && s[|s| - 1] == Digit(n % 10);
      if m >= 10 && n >= 10 {
        assert s[..|s| - 1] == Decimal(m / 10) && s[..|s| - 1] == Decimal(n / 10);
        DecimalInjective(m / 10, n / 10);
      }
    }
  }

  /** The number that a string of decimal digits denotes. */
  function Denotes(s: string): int {
    if s == "" then 0 else 10 * Denotes(s[..|s| - 1]) + (s[|s| - 1] as int - '0' as int)
  }

  /** `Decimal` writes digits only, none of them a leading zero, that denote the number. */
  lemma {:induction false} DecimalDenotes(n: nat)
    ensures Denotes(Decimal(n)) == n && (n > 0 ==> Decimal(n)[0] != '0')
    ensures forall c | c in Decimal(n) :: '0' <= c <= '9'
  {
    if n >= 10 {
      DecimalDenotes(n / 10);
      assert Decimal(n)[..|Decimal(n)| - 1] == Decimal(n / 10);
    }
  }

  /** `stagedKey` in the process-manager substrate. */
  function StagedKey(partition: string, event: nat): string { partition + ":" + Decimal(event) }

  /** It is injective whatever the partition key contains: the last colon separates. */
  lemma StagedKeyInjective(p1: string, n1: nat, p2: string, n2: nat)
    ensures StagedKey(p1, n1) == StagedKey(p2, n2) <==> p1 == p2 && n1 == n2
  {
    if StagedKey(p1, n1) == StagedKey(p2, n2) {
      LastColon(p1, Decimal(n1), p2, Decimal(n2));
      LastColon(p2, Decimal(n2), p1, Decimal(n1));
      var s := StagedKey(p1, n1);
      assert s[..|p1|] == p1 && s[..|p2|] == p2;
      assert s[|p1| + 1..] == Decimal(n1) && s[|p2| + 1..] == Decimal(n2);
      DecimalInjective(n1, n2);
    }
  }

  lemma LastColon(p1: string, d1: string, p2: string, d2: string)
    requires p1 + ":" + d1 == p2 + ":" + d2 && ':' !in d2
    ensures |p1| <= |p2|
  {
    var s := p2 + ":" + d2;
    assert (p1 + ":" + d1)[|p1|] == ':';
    assert forall i | |p2| < i < |s| :: s[i] == d2[i - |p2| - 1];
  }

  /** One key of each kind, spelled out. */
  lemma KeysSpelled()
    ensures PrefixType("Account", "42") == "Account-42" && RefKey(SubscriptionRef("$all", "balances")) == "$all::balances"
    ensures StagedKey("t1", 120) == "t1:120"
  {
    assert Decimal(12) == Decimal(1) + "2" && Decimal(120) == Decimal(12) + "0";
  }
}
