/** Connection parameters: the user's laid over the defaults (app/command_deploy_connection.go, mergeDSNParams). */
module DsnParams {
  import opened Text

  function Key(pair: string): string {
    Before(pair, '=')
  }

  predicate Counts(pair: string) {
    TrimSpace(pair) != ""
  }

  // ---- what a merge is ----

  /** The keys of the pairs, each once, in the order they first appear. */
  function FirstKeys(pairs: seq<string>): seq<string> {
    if pairs == [] then []
    else
      var keys, last := FirstKeys(pairs[..|pairs| - 1]), pairs[|pairs| - 1];
      if !Counts(last) || Key(last) in keys then keys else keys + [Key(last)]
  }

  /** The last pair given for a key. */
  function LastFor(pairs: seq<string>, key: string): string {
    if pairs == [] then ""
    else
      var last := pairs[|pairs| - 1];
      if Counts(last) && Key(last) == key then last else LastFor(pairs[..|pairs| - 1], key)
  }

  ghost predicate IsMerge(pairs: seq<string>, order: seq<string>) {
    && |order| == |FirstKeys(pairs)|
    && forall i :: 0 <= i < |order| ==> order[i] == LastFor(pairs, FirstKeys(pairs)[i])
  }

  /** A key is listed once, and only the keys of pairs that count are. */
  lemma {:induction false} KeysAreListedOnce(pairs: seq<string>)
    ensures forall i, j :: 0 <= i < j < |FirstKeys(pairs)| ==> FirstKeys(pairs)[i] != FirstKeys(pairs)[j]
    ensures forall k :: k in FirstKeys(pairs) <==> exists p :: p in pairs && Counts(p) && Key(p) == k
  {
    if pairs != [] {
      var front, last := pairs[..|pairs| - 1], pairs[|pairs| - 1];
      KeysAreListedOnce(front);
      assert pairs == front + [last];
    }
  }

  /** Later pairs only add keys behind those already there: keys keep the order of their first appearance. */
  lemma {:induction false} KeysKeepTheirPlace(earlier: seq<string>, later: seq<string>)
    ensures FirstKeys(earlier) <= FirstKeys(earlier + later)
  {
    if later == [] {
      assert earlier + later == earlier;
    } else {
      var front := later[..|later| - 1];
      KeysKeepTheirPlace(earlier, front);
      assert (earlier + later)[..|earlier + later| - 1] == earlier + front;
    }
  }

  /** The pair kept for a key was given for it, and nothing was given for it later. */
  lemma {:induction false} KeptPairIsTheLast(pairs: seq<string>, k: string) returns (n: nat)
    requires k in FirstKeys(pairs)
    ensures n < |pairs| && pairs[n] == LastFor(pairs, k) && Counts(pairs[n]) && Key(pairs[n]) == k
    ensures forall m :: n < m < |pairs| && Counts(pairs[m]) ==> Key(pairs[m]) != k
  {
    var last := pairs[|pairs| - 1];
    if Counts(last) && Key(last) == k {
      n := |pairs| - 1;
    } else {
      n := KeptPairIsTheLast(pairs[..|pairs| - 1], k);
    }
  }

  /** The defaults' keys come first, in the defaults' order, whatever values the user gave them. */
  lemma DefaultsComeFirst(defaults: seq<string>, given: seq<string>, alone: seq<string>, order: seq<string>)
    requires IsMerge(defaults, alone) && IsMerge(defaults + given, order)
    ensures |alone| <= |order|
    ensures forall i :: 0 <= i < |alone| ==> Key(order[i]) == Key(alone[i])
  {
    KeysKeepTheirPlace(defaults, given);
    forall i | 0 <= i < |alone| ensures Key(order[i]) == Key(alone[i]) {
      KeysOfMerge(defaults, alone);
      KeysOfMerge(defaults + given, order);
    }
  }

  lemma KeysOfMerge(pairs: seq<string>, order: seq<string>)
    requires IsMerge(pairs, order)
    ensures forall i :: 0 <= i < |order| ==>
      Counts(order[i]) && Key(order[i]) == FirstKeys(pairs)[i] && order[i] in pairs
  {
    forall i | 0 <= i < |order| ensures Counts(order[i]) && Key(order[i]) == FirstKeys(pairs)[i] && order[i] in pairs {
      var n := KeptPairIsTheLast(pairs, FirstKeys(pairs)[i]);
    }
  }

  // ---- in terms of the text ----

  lemma {:induction false} KeyMeans(pair: string, key: string)
    requires '=' !in key
    ensures Key(pair) == key <==> pair == key || key + "=" <= pair
  {
    if pair != "" && key != "" && pair[0] == key[0] {
      KeyMeans(pair[1..], key[1..]);
      assert pair == [pair[0]] + pair[1..] && key == [key[0]] + key[1..];
      assert key + "=" == [key[0]] + (key[1..] + "=");
    } else if pair != "" && pair[0] != '=' {
      assert Key(pair) == [pair[0]] + Key(pair[1..]);
    }
  }

  /** `key=value`, given and not given again, is in the result, alone of all that starts with `key=`. */
  lemma LastGivenWins(before: seq<string>, key: string, value: string, following: seq<string>, order: seq<string>)
    requires '=' !in key && !Blank(key + "=" + value)
    requires forall p :: p in following ==> p != key && !(key + "=" <= p)
    requires IsMerge(before + [key + "=" + value] + following, order)
    ensures key + "=" + value in order
    ensures forall p :: p in order && p != key + "=" + value ==> p != key && !(key + "=" <= p)
    ensures forall p :: p in order ==> !Blank(p)
  {
    var pair := key + "=" + value;
    var pairs := before + [pair] + following;
    KeysOfMerge(pairs, order);
    KeysAreListedOnce(pairs);
    KeyMeans(pair, key);
    BlankTrimsToNothing(pair);
    assert pairs[|before|] == pair;
    assert Counts(pair) && Key(pair) == key;
    assert pair in pairs && key in FirstKeys(pairs);
    var i :| 0 <= i < |FirstKeys(pairs)| && FirstKeys(pairs)[i] == key;
    var n := KeptPairIsTheLast(pairs, key);
    forall p | p in following ensures Key(p) != key { KeyMeans(p, key); }
    assert n == |before|;
    assert order[i] == pair;
    forall p | p in order ensures !Blank(p) && (p != pair ==> p != key && !(key + "=" <= p)) {
      var j :| 0 <= j < |order| && order[j] == p;
      BlankTrimsToNothing(p);
      KeyMeans(p, key);
    }
  }

  // ---- merging the result again ----

  function Max(a: nat, b: nat): nat {
    if a >= b then a else b
  }

  /** Adding pairs one by one whose keys continue those already listed. */
  lemma {:induction false} KeysContinue(pairs: seq<string>, more: seq<string>, keys: seq<string>, n: nat)
    requires n <= |more| == |keys| && FirstKeys(pairs) <= keys
    requires forall i :: 0 <= i < |more| ==> Counts(more[i]) && Key(more[i]) == keys[i]
    requires forall i, j :: 0 <= i < j < |keys| ==> keys[i] != keys[j]
    ensures FirstKeys(pairs + more[..n]) == keys[..Max(|FirstKeys(pairs)|, n)]
  {
    if n == 0 {
      OneMore(pairs, more, 0);
    } else {
      KeysContinue(pairs, more, keys, n - 1);
      KeysAddOne(pairs + more[..n - 1], more[n - 1]);
      OneMore(pairs, more, n);
      var m := Max(|FirstKeys(pairs)|, n - 1);
      assert FirstKeys(pairs + more[..n]) ==
        if keys[n - 1] in keys[..m] then keys[..m] else keys[..m] + [keys[n - 1]];
      NextKey(keys, m, n);
    }
  }

  lemma OneMore(pairs: seq<string>, more: seq<string>, n: nat)
    requires n <= |more|
    ensures n == 0 ==> pairs + more[..n] == pairs
    ensures n > 0 ==> pairs + more[..n] == pairs + more[..n - 1] + [more[n - 1]]
  {
  }

  lemma NextKey(keys: seq<string>, m: nat, n: nat)
    requires 0 < n <= |keys| && n - 1 <= m <= |keys|
    requires forall i, j :: 0 <= i < j < |keys| ==> keys[i] != keys[j]
    ensures (if keys[n - 1] in keys[..m] then keys[..m] else keys[..m] + [keys[n - 1]]) == keys[..Max(m, n)]
  {
    if m >= n {
      assert keys[..m][n - 1] == keys[n - 1];
    }
  }

  lemma KeysAddOne(pairs: seq<string>, pair: string)
    ensures FirstKeys(pairs + [pair]) ==
      if !Counts(pair) || Key(pair) in FirstKeys(pairs) then FirstKeys(pairs) else FirstKeys(pairs) + [Key(pair)]
  {
    assert (pairs + [pair])[..|pairs|] == pairs;
  }

  lemma {:induction false} LastOfDistinct(pairs: seq<string>, more: seq<string>, i: nat)
    requires i < |more| && forall j :: 0 <= j < |more| ==> Counts(more[j])
    requires forall j, k :: 0 <= j < k < |more| ==> Key(more[j]) != Key(more[k])
    ensures LastFor(pairs + more, Key(more[i])) == more[i]
  {
    var all := pairs + more;
    assert all[|all| - 1] == more[|more| - 1];
    if i < |more| - 1 {
      assert all[..|all| - 1] == pairs + more[..|more| - 1];
      LastOfDistinct(pairs, more[..|more| - 1], i);
    }
  }

  lemma MergingAgainChangesNothing(defaults: seq<string>, given: seq<string>, order: seq<string>)
    requires IsMerge(defaults + given, order)
    ensures IsMerge(defaults + order, order)
  {
    var keys := FirstKeys(defaults + given);
    KeysOfMerge(defaults + given, order);
    KeysAreListedOnce(defaults + given);
    KeysKeepTheirPlace(defaults, given);
    KeysContinue(defaults, order, keys, |order|);
    assert order[..|order|] == order;
    forall i | 0 <= i < |order| ensures order[i] == LastFor(defaults + order, keys[i]) {
      LastOfDistinct(defaults, order, i);
    }
  }

  // ---- text ----

  lemma {:induction false} SplitHasNoSeparator(s: string, sep: char)
    ensures forall i :: 0 <= i < |Split(s, sep)| ==> sep !in Split(s, sep)[i]
  {
    if s != "" {
      SplitHasNoSeparator(s[1..], sep);
    }
  }

  /** The pairs a call is given: the defaults, then the user's. */
  function Given(defaults: seq<string>, params: string): seq<string> {
    defaults + Split(params, '&')
  }

  /** Merging a result onto the same defaults returns it unchanged. */
  lemma MergeIsIdempotent(defaults: seq<string>, params: string, once: seq<string>, twice: seq<string>)
    requires forall i :: 0 <= i < |defaults| ==> '&' !in defaults[i]
    requires IsMerge(Given(defaults, params), once)
    requires IsMerge(Given(defaults, Join(once, '&')), twice)
    ensures twice == once
  {
    SplitHasNoSeparator(params, '&');
    KeysOfMerge(Given(defaults, params), once);
    MergingAgainChangesNothing(defaults, Split(params, '&'), once);
    if once == [] {
      KeysKeepTheirPlace(defaults, Split(params, '&'));
      KeysAddOne(defaults, "");
    } else {
      SplitJoin(once, '&');
    }
  }

  // ---- the merge itself ----

  class Merger {
    var order: seq<string>
    var at: map<string, nat>
    ghost var pairs: seq<string>

    ghost predicate Valid() reads this {
      && IsMerge(pairs, order)
      && (forall k :: k in at <==> k in FirstKeys(pairs))
      && forall k :: k in at ==> at[k] < |order| && FirstKeys(pairs)[at[k]] == k
    }

    constructor ()
      ensures Valid() && pairs == []
    {
      order, at, pairs := [], map[], [];
    }

    method Add(pair: string)
      requires Valid()
      modifies this
      ensures Valid() && pairs == old(pairs) + [pair]
    {
      ghost var before := pairs;
      pairs := before + [pair];
      assert pairs[..|before|] == before;
      if TrimSpace(pair) == "" {
        return;
      }
      KeysAreListedOnce(before);
      var key := Key(pair);
      if key in at {
        order := order[at[key] := pair];
        return;
      }
      at := at[key := |order|];
      order := order + [pair];
    }
  }

  method MergeDSNParams(defaults: seq<string>, params: string) returns (merged: string)
    ensures exists order :: IsMerge(Given(defaults, params), order) && merged == Join(order, '&')
  {
    var m := new Merger();
    for i := 0 to |defaults|
      invariant m.Valid() && m.pairs == defaults[..i]
    {
      m.Add(defaults[i]);
    }
    var given := Split(params, '&');
    for i := 0 to |given|
      invariant m.Valid() && m.pairs == defaults + given[..i]
    {
      m.Add(given[i]);
    }
    assert given[..|given|] == given;
    merged := Join(m.order, '&');
  }
}
