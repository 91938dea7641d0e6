/** RouterOS menus as tables of entries, and the GET-then-add-or-patch step that edits one. */
module RouterTables {
  datatype Field =
    | Name | Address | Interface | Comment | Ranges | AddressPool | Disabled | Gateway | DnsServer | Action | DstAddress
    | HotspotAddress | LoginBy | DnsName | HtmlDirectory | UseRadius | Profile | Service | Secret | Chain | SrcAddress
    | LocalAddress | RemoteAddress | UseUpnp | ChangeTcpMss | ServiceName | DefaultProfile

  /** An entry's fields; the router's own `.id` only serves to address the entry and is left out. */
  type Entry = map<Field, string>

  /** Fields an entry must have, and a prefix that one more field must start with. */
  datatype Matcher = Matcher(equal: Entry, prefixField: Field, prefix: string)

  predicate Matches(m: Matcher, e: Entry) {
    && (forall f :: f in m.equal ==> f in e && e[f] == m.equal[f])
    && m.prefix <= (if m.prefixField in e then e[m.prefixField] else "")
  }

  /** Add `add` when nothing matches; otherwise apply `patch` (empty: leave it) to the first match. */
  datatype Rule = Rule(matcher: Matcher, add: Entry, patch: Entry)

  /** The index of the first match, or the length of the table. */
  function First(table: seq<Entry>, m: Matcher): (i: nat)
    ensures i <= |table|
    ensures forall j :: 0 <= j < i ==> !Matches(m, table[j])
    ensures i < |table| ==> Matches(m, table[i])
  {
    if table == [] then 0
    else if Matches(m, table[0]) then 0
    else 1 + First(table[1..], m)
  }

  function Fix(table: seq<Entry>, rule: Rule): seq<Entry> {
    var i := First(table, rule.matcher);
    if i < |table| then table[i := table[i] + rule.patch] else table + [rule.add]
  }

  function Count(table: seq<Entry>, m: Matcher): nat {
    if table == [] then 0
    else Count(table[..|table| - 1], m) + (if Matches(m, table[|table| - 1]) then 1 else 0)
  }

  /** The added entry matches and agrees with the patch, and a patch does not unmatch. */
  ghost predicate Sound(rule: Rule) {
    && Matches(rule.matcher, rule.add)
    && rule.add + rule.patch == rule.add
    && (forall f :: f in rule.matcher.equal ==> f !in rule.patch)
    && rule.matcher.prefixField !in rule.patch
  }

  lemma FirstUnique(table: seq<Entry>, m: Matcher, i: nat)
    requires i < |table| && Matches(m, table[i]) && forall j :: 0 <= j < i ==> !Matches(m, table[j])
    ensures First(table, m) == i
  {
  }

  lemma PatchMatches(rule: Rule, e: Entry)
    requires Sound(rule)
    ensures Matches(rule.matcher, e + rule.patch) <==> Matches(rule.matcher, e)
  {
  }

  /** Fixing a table twice is fixing it once. */
  lemma FixIdempotent(table: seq<Entry>, rule: Rule)
    requires Sound(rule)
    ensures Fix(Fix(table, rule), rule) == Fix(table, rule)
  {
    var i := First(table, rule.matcher);
    var fixed := Fix(table, rule);
    if i < |table| {
      PatchMatches(rule, table[i]);
    }
    FirstUnique(fixed, rule.matcher, i);
    assert fixed[i] + rule.patch == fixed[i];
  }

  lemma {:induction false} CountFirst(table: seq<Entry>, m: Matcher)
    ensures Count(table, m) == 0 <==> First(table, m) == |table|
  {
    if table != [] {
      var n := |table| - 1;
      CountFirst(table[..n], m);
      if First(table, m) < n {
        FirstUnique(table[..n], m, First(table, m));
      }
    }
  }

  lemma {:induction false} CountUpdate(table: seq<Entry>, m: Matcher, i: nat, e: Entry)
    requires i < |table| && (Matches(m, e) <==> Matches(m, table[i]))
    ensures Count(table[i := e], m) == Count(table, m)
  {
    var n := |table| - 1;
    if i < n {
      CountUpdate(table[..n], m, i, e);
      assert table[i := e][..n] == table[..n][i := e];
    } else {
      assert table[i := e][..n] == table[..n];
    }
  }

  /** Fixing never makes a duplicate: there is one match if there was none, and as many as before otherwise. */
  lemma FixCount(table: seq<Entry>, rule: Rule)
    requires Sound(rule)
    ensures Count(Fix(table, rule), rule.matcher) ==
            if Count(table, rule.matcher) == 0 then 1 else Count(table, rule.matcher)
  {
    var i := First(table, rule.matcher);
    CountFirst(table, rule.matcher);
    if i < |table| {
      PatchMatches(rule, table[i]);
      CountUpdate(table, rule.matcher, i, table[i] + rule.patch);
    } else {
      assert (table + [rule.add])[..|table|] == table;
    }
  }

  // ---------------------------------------------------------------- entries tagged as ours

  const TAG := "Frixel Connect-radius"

  predicate Tagged(e: Entry) {
    Comment in e && e[Comment] == TAG
  }

  predicate AnyTagged(clients: seq<Entry>) {
    exists i :: 0 <= i < |clients| && Tagged(clients[i])
  }

  /** The clients without our tag, in order. */
  function Untagged(clients: seq<Entry>): seq<Entry> {
    if clients == [] then []
    else
      var n := |clients| - 1;
      Untagged(clients[..n]) + (if Tagged(clients[n]) then [] else [clients[n]])
  }

  /** `DELETE` of the first tagged client. */
  function RemoveFirstTagged(clients: seq<Entry>): seq<Entry> {
    if clients == [] then []
    else if Tagged(clients[0]) then clients[1..]
    else [clients[0]] + RemoveFirstTagged(clients[1..])
  }

  lemma {:induction false} RemoveShrinks(clients: seq<Entry>)
    requires AnyTagged(clients)
    ensures |RemoveFirstTagged(clients)| == |clients| - 1
  {
    if !Tagged(clients[0]) {
      var i :| 0 <= i < |clients| && Tagged(clients[i]);
      assert Tagged(clients[1..][i - 1]);
      RemoveShrinks(clients[1..]);
    }
  }

  lemma {:induction false} UntaggedNone(clients: seq<Entry>)
    requires !AnyTagged(clients)
    ensures Untagged(clients) == clients
  {
    if clients != [] {
      var n := |clients| - 1;
      assert !Tagged(clients[n]);
      assert !AnyTagged(clients[..n]) by {
        assert forall i :: 0 <= i < n ==> clients[..n][i] == clients[i];
      }
      UntaggedNone(clients[..n]);
    }
  }

  lemma {:induction false} UntaggedConcat(a: seq<Entry>, b: seq<Entry>)
    ensures Untagged(a + b) == Untagged(a) + Untagged(b)
  {
    if b == [] {
      assert a + b == a;
    } else {
      var n := |b| - 1;
      assert (a + b)[..|a| + n] == a + b[..n];
      UntaggedConcat(a, b[..n]);
    }
  }

  lemma UntaggedOne(e: Entry)
    ensures Untagged([e]) == if Tagged(e) then [] else [e]
  {
    assert [e][..0] == [];
  }

  lemma {:induction false} UntaggedRemoved(clients: seq<Entry>)
    ensures Untagged(RemoveFirstTagged(clients)) == Untagged(clients)
  {
    if clients != [] {
      var head, tail := [clients[0]], clients[1..];
      assert clients == head + tail;
      UntaggedConcat(head, tail);
      UntaggedOne(clients[0]);
      if !Tagged(clients[0]) {
        UntaggedRemoved(tail);
        UntaggedConcat(head, RemoveFirstTagged(tail));
      }
    }
  }

  lemma {:induction false} UntaggedClean(clients: seq<Entry>)
    ensures !AnyTagged(Untagged(clients))
  {
    if clients != [] {
      UntaggedClean(clients[..|clients| - 1]);
    }
  }
}
