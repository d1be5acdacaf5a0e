/**
 * Local-address selection (src/ip.ts).  `GetIP` scans the interface table, which the model takes
 * as a parameter in place of `os.networkInterfaces()`: the first non-internal address of the
 * requested family wins; failing that, the last internal one; failing that, the family's
 * unspecified address.
 */
module Ip {
  import opened Base

  /** One entry of an interface's address list. */
  datatype Iface = Iface(address: string, family: string, internal: bool)

  /** One named interface with its addresses. */
  datatype Entry = Entry(name: string, ifaces: seq<Iface>)

  /** The interface table, in the order `for…in` visits its names. */
  type Table = seq<Entry>

  /** The value `internal` starts from. */
  function DefaultAddress(family: string): string {
    if family == "IPv4" then "0.0.0.0" else "::"
  }

  /** The loop skips an address only when a family is given and the address is of another one. */
  predicate Considered(i: Iface, family: string) {
    family == "" || i.family == family
  }

  /** Every address of the table, in visiting order. */
  function Flatten(t: Table): seq<Iface> {
    if t == [] then [] else t[0].ifaces + Flatten(t[1..])
  }

  /** The addresses the loop considers, in visiting order. */
  function Candidates(s: seq<Iface>, family: string): (c: seq<Iface>)
    ensures forall i :: 0 <= i < |c| ==> Considered(c[i], family) && c[i] in s
    ensures forall i :: 0 <= i < |s| && Considered(s[i], family) ==> s[i] in c
  {
    if s == [] then []
    else if Considered(s[0], family) then [s[0]] + Candidates(s[1..], family)
    else Candidates(s[1..], family)
  }

  /** The first non-internal address of `c`, if any. */
  function FirstExternal(c: seq<Iface>): (r: Option<Iface>)
    ensures r.None? <==> forall i :: 0 <= i < |c| ==> c[i].internal
    ensures r.Some? ==> exists k :: 0 <= k < |c| && c[k] == r.value && !c[k].internal &&
                                    forall j :: 0 <= j < k ==> c[j].internal
  {
    if c == [] then None
    else if !c[0].internal then Some(c[0])
    else
      var r := FirstExternal(c[1..]);
      if r.Some? then
        var k :| 0 <= k < |c[1..]| && c[1..][k] == r.value && !c[1..][k].internal &&
                 forall j :: 0 <= j < k ==> c[1..][j].internal;
        assert c[k + 1] == r.value;
        r
      else r
  }

  /** The last internal address of `c`, if any. */
  function LastInternal(c: seq<Iface>): (r: Option<Iface>)
    ensures r.None? <==> forall i :: 0 <= i < |c| ==> !c[i].internal
    ensures r.Some? ==> exists k :: 0 <= k < |c| && c[k] == r.value && c[k].internal &&
                                    forall j :: k < j < |c| ==> !c[j].internal
  {
    if c == [] then None
    else if c[|c| - 1].internal then Some(c[|c| - 1])
    else LastInternal(c[..|c| - 1])
  }

  /** What `internal` holds once no non-internal candidate has been met. */
  function Fallback(c: seq<Iface>, family: string): string {
    match LastInternal(c)
    case Some(i) => i.address
    case None => DefaultAddress(family)
  }

  /** The reference definition of the selection, over the flattened table. */
  function SelectIn(s: seq<Iface>, family: string): string {
    var c := Candidates(s, family);
    match FirstExternal(c)
    case Some(i) => i.address
    case None => Fallback(c, family)
  }

  lemma {:induction false} FlattenAppend(a: Table, b: Table)
    ensures Flatten(a + b) == Flatten(a) + Flatten(b)
  {
    if a == [] {
      assert a + b == b;
    } else {
      assert (a + b)[1..] == a[1..] + b;
      FlattenAppend(a[1..], b);
    }
  }

  lemma {:induction false} CandidatesAppend(a: seq<Iface>, b: seq<Iface>, family: string)
    ensures Candidates(a + b, family) == Candidates(a, family) + Candidates(b, family)
  {
    if a == [] {
      assert a + b == b;
    } else {
      assert (a + b)[1..] == a[1..] + b;
      CandidatesAppend(a[1..], b, family);
    }
  }

  lemma {:induction false} FirstExternalAppend(a: seq<Iface>, b: seq<Iface>)
    ensures FirstExternal(a + b) == if FirstExternal(a).Some? then FirstExternal(a) else FirstExternal(b)
  {
    if a == [] {
      assert a + b == b;
    } else {
      assert (a + b)[1..] == a[1..] + b;
      FirstExternalAppend(a[1..], b);
    }
  }

  lemma {:induction false} LastInternalAppend(a: seq<Iface>, b: seq<Iface>)
    ensures LastInternal(a + b) == if LastInternal(b).Some? then LastInternal(b) else LastInternal(a)
  {
    if b == [] {
      assert a + b == a;
    } else {
      assert (a + b)[..|a + b| - 1] == a + b[..|b| - 1];
      LastInternalAppend(a, b[..|b| - 1]);
    }
  }

  /** One turn of the inner loop that does not return keeps the loop's two invariants. */
  lemma ScanStep(done: seq<Iface>, ifaces: seq<Iface>, k: nat, family: string)
    requires k < |ifaces|
    requires ifaces[k].internal || !Considered(ifaces[k], family)
    requires FirstExternal(Candidates(done + ifaces[..k], family)) == None
    ensures FirstExternal(Candidates(done + ifaces[..k + 1], family)) == None
    ensures Fallback(Candidates(done + ifaces[..k + 1], family), family) ==
            if Considered(ifaces[k], family) then ifaces[k].address
            else Fallback(Candidates(done + ifaces[..k], family), family)
  {
    var x := ifaces[k];
    var prefix := done + ifaces[..k];
    assert ifaces[..k + 1] == ifaces[..k] + [x];
    assert done + ifaces[..k + 1] == prefix + [x];
    CandidatesAppend(prefix, [x], family);
    var c := Candidates(prefix, family);
    if Considered(x, family) {
      assert Candidates([x], family) == [x];
      LastInternalAppend(c, [x]);
      FirstExternalAppend(c, [x]);
    } else {
      assert Candidates([x], family) == [];
      assert c + [] == c;
    }
  }

  /** One turn of the outer loop appends that interface's addresses to what has been visited. */
  lemma FlattenStep(table: Table, n: nat)
    requires n < |table|
    ensures Flatten(table[..n + 1]) == Flatten(table[..n]) + table[n].ifaces
  {
    assert table[..n + 1] == table[..n] + [table[n]];
    FlattenAppend(table[..n], [table[n]]);
    assert Flatten([table[n]]) == table[n].ifaces + Flatten([]);
  }

  /**
   * `getIP(family)` over the table `table`: the nested loops, the early return and the
   * step-by-step update of `internal`, proved to compute `SelectIn`.
   */
  method GetIP(table: Table, family: string) returns (address: string)
    ensures address == SelectIn(Flatten(table), family)
  {
    var internal := if family == "IPv4" then "0.0.0.0" else "::";
    var n := 0;
    while n < |table|
      invariant 0 <= n <= |table|
      invariant FirstExternal(Candidates(Flatten(table[..n]), family)) == None
      invariant internal == Fallback(Candidates(Flatten(table[..n]), family), family)
    {
      var ifaces := table[n].ifaces;
      ghost var done := Flatten(table[..n]);
      var k := 0;
      assert done + ifaces[..k] == done;
      while k < |ifaces|
        invariant 0 <= k <= |ifaces|
        invariant FirstExternal(Candidates(done + ifaces[..k], family)) == None
        invariant internal == Fallback(Candidates(done + ifaces[..k], family), family)
      {
        var iface := ifaces[k];
        if family != "" && iface.family != family {
          ScanStep(done, ifaces, k, family);
        } else if iface.internal {
          ScanStep(done, ifaces, k, family);
          internal := iface.address;
        } else {
          ReturnsFirstExternal(table, family, n, k);
          return iface.address;
        }
        k := k + 1;
      }
      assert ifaces[..k] == ifaces;
      FlattenStep(table, n);
      n := n + 1;
    }
    assert table[..n] == table;
    address := internal;
  }

  /** The early return of `GetIP` picks the first non-internal candidate of the whole table. */
  lemma ReturnsFirstExternal(table: Table, family: string, n: nat, k: nat)
    requires n < |table| && k < |table[n].ifaces|
    requires Considered(table[n].ifaces[k], family) && !table[n].ifaces[k].internal
    requires FirstExternal(Candidates(Flatten(table[..n]) + table[n].ifaces[..k], family)) == None
    ensures SelectIn(Flatten(table), family) == table[n].ifaces[k].address
  {
    var x := table[n].ifaces[k];
    var prefix := Flatten(table[..n]) + table[n].ifaces[..k];
    var rest := table[n].ifaces[k + 1..] + Flatten(table[n + 1..]);
    FlattenAround(table, n, k);
    SelectAfterPrefix(prefix, x, rest, family);
  }

  /** The flattened table around the address at entry `n`, position `k`. */
  lemma FlattenAround(table: Table, n: nat, k: nat)
    requires n < |table| && k < |table[n].ifaces|
    ensures Flatten(table) == Flatten(table[..n]) + table[n].ifaces[..k] + [table[n].ifaces[k]] +
                              (table[n].ifaces[k + 1..] + Flatten(table[n + 1..]))
  {
    var ifs := table[n].ifaces;
    assert table == table[..n] + ([table[n]] + table[n + 1..]);
    FlattenAppend(table[..n], [table[n]] + table[n + 1..]);
    FlattenAppend([table[n]], table[n + 1..]);
    assert Flatten([table[n]]) == ifs + Flatten([]);
    assert ifs == ifs[..k] + [ifs[k]] + ifs[k + 1..];
  }

  /** A considered non-internal `x` after a prefix without such candidates is selected. */
  lemma SelectAfterPrefix(prefix: seq<Iface>, x: Iface, rest: seq<Iface>, family: string)
    requires Considered(x, family) && !x.internal
    requires FirstExternal(Candidates(prefix, family)) == None
    ensures SelectIn(prefix + [x] + rest, family) == x.address
  {
    CandidatesAppend(prefix + [x], rest, family);
    CandidatesAppend(prefix, [x], family);
    var cp := Candidates(prefix, family);
    assert Candidates([x], family) == [x];
    FirstExternalAppend(cp + [x], Candidates(rest, family));
    FirstExternalAppend(cp, [x]);
  }

  /** Candidates of `s` up to position `k` are the candidates of `s[..k]`, and so on. */
  lemma CandidatesSplit(s: seq<Iface>, k: nat, family: string)
    requires k < |s|
    ensures Candidates(s, family) ==
            Candidates(s[..k], family) + Candidates([s[k]], family) + Candidates(s[k + 1..], family)
  {
    assert s == s[..k] + [s[k]] + s[k + 1..];
    CandidatesAppend(s[..k] + [s[k]], s[k + 1..], family);
    CandidatesAppend(s[..k], [s[k]], family);
  }

  /** Without a considered address there is no candidate. */
  lemma {:induction false} NoCandidates(s: seq<Iface>, family: string)
    requires forall j :: 0 <= j < |s| ==> !Considered(s[j], family)
    ensures Candidates(s, family) == []
  {
    if s != [] {
      NoCandidates(s[1..], family);
    }
  }

  /**
   * If some considered address is non-internal, the result is the first such address in
   * visiting order.
   */
  lemma {:induction false} SelectFirstExternal(s: seq<Iface>, family: string, k: nat)
    requires k < |s| && Considered(s[k], family) && !s[k].internal
    requires forall j :: 0 <= j < k && Considered(s[j], family) ==> s[j].internal
    ensures SelectIn(s, family) == s[k].address
  {
    CandidatesSplit(s, k, family);
    var before := Candidates(s[..k], family);
    assert Candidates([s[k]], family) == [s[k]];
    assert FirstExternal(before) == None by {
      forall i | 0 <= i < |before| ensures before[i].internal {
        assert before[i] in s[..k];
      }
    }
    FirstExternalAppend(before + [s[k]], Candidates(s[k + 1..], family));
    FirstExternalAppend(before, [s[k]]);
  }

  /**
   * If every considered address is internal and there is one, the result is the last of them:
   * on a loopback-only host this is the loopback address, not the unspecified one.
   */
  lemma {:induction false} SelectLastInternal(s: seq<Iface>, family: string, k: nat)
    requires forall j :: 0 <= j < |s| && Considered(s[j], family) ==> s[j].internal
    requires k < |s| && Considered(s[k], family)
    requires forall j :: k < j < |s| ==> !Considered(s[j], family)
    ensures SelectIn(s, family) == s[k].address
  {
    CandidatesSplit(s, k, family);
    var c := Candidates(s, family);
    var before := Candidates(s[..k], family);
    var after := Candidates(s[k + 1..], family);
    assert Candidates([s[k]], family) == [s[k]];
    var rest := s[k + 1..];
    forall j | 0 <= j < |rest| ensures !Considered(rest[j], family) {
      assert rest[j] == s[k + 1 + j];
    }
    NoCandidates(rest, family);
    assert c == before + [s[k]];
    assert FirstExternal(c) == None by {
      forall i | 0 <= i < |c| ensures c[i].internal {
        assert c[i] in s;
      }
    }
    LastInternalAppend(before, [s[k]]);
  }

  /** With no address of the requested family the result is `0.0.0.0` for IPv4 and `::` otherwise. */
  lemma SelectDefault(s: seq<Iface>, family: string)
    requires forall j :: 0 <= j < |s| ==> !Considered(s[j], family)
    ensures SelectIn(s, family) == (if family == "IPv4" then "0.0.0.0" else "::")
  {
    NoCandidates(s, family);
  }

  /** An address of another family, wherever it stands in the table, never changes the result. */
  lemma OtherFamilyIgnored(s1: seq<Iface>, x: Iface, s2: seq<Iface>, family: string)
    requires family != "" && x.family != family
    ensures SelectIn(s1 + [x] + s2, family) == SelectIn(s1 + s2, family)
  {
    CandidatesAppend(s1 + [x], s2, family);
    CandidatesAppend(s1, [x], family);
    CandidatesAppend(s1, s2, family);
    assert Candidates([x], family) == [];
    assert Candidates(s1, family) + [] == Candidates(s1, family);
  }

  /** The result is the family's unspecified address or the address of a considered interface. */
  lemma SelectIsCandidateOrDefault(s: seq<Iface>, family: string)
    ensures SelectIn(s, family) == DefaultAddress(family) ||
            exists k :: 0 <= k < |s| && Considered(s[k], family) && s[k].address == SelectIn(s, family)
  {
    var c := Candidates(s, family);
    var r := SelectIn(s, family);
    if r != DefaultAddress(family) {
      var i: Iface;
      if FirstExternal(c).Some? {
        i := FirstExternal(c).value;
      } else {
        i := LastInternal(c).value;
      }
      assert i in c && i.address == r;
      var k :| 0 <= k < |s| && s[k] == i;
    }
  }

  /** A host with only a loopback interface: the loopback address is returned. */
  lemma LoopbackOnlyHost()
    ensures SelectIn(Flatten([Entry("lo", [Iface("127.0.0.1", "IPv4", true)])]), "IPv4") == "127.0.0.1"
  {
    var t := [Entry("lo", [Iface("127.0.0.1", "IPv4", true)])];
    assert Flatten(t) == [Iface("127.0.0.1", "IPv4", true)] + Flatten([]);
    SelectLastInternal(Flatten(t), "IPv4", 0);
  }
}
