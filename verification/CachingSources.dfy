/** The cache of resolved configuration versions. Its key is built by walking over a map
    of overrides, in whatever order that yields its items. */
module CachingSources {
  import opened Strings

  const NUL := 0 as char

  datatype Answer = Resolved(version: string) | Error(message: string)

  type Overrides = map<string, string>

  /******* Cache keys *******/

  /** The tokens, each followed by a separator. */
  function Encoded(tokens: seq<string>): string {
    if tokens == [] then [] else Encoded(tokens[..|tokens| - 1]) + tokens[|tokens| - 1] + [NUL]
  }

  function Tokens(channel: string, order: seq<(string, string)>): seq<string> {
    if order == [] then [channel] else
      Tokens(channel, order[..|order| - 1]) + [order[|order| - 1].0, order[|order| - 1].1]
  }

  function KeyOf(channel: string, order: seq<(string, string)>): string {
    Encoded(Tokens(channel, order))
  }

  ghost predicate NulFree(tokens: seq<string>) {
    forall i :: 0 <= i < |tokens| ==> NUL !in tokens[i]
  }

  /** Neither the channel nor an override contains the separator. */
  ghost predicate Clean(channel: string, overrides: Overrides) {
    NUL !in channel && forall k :: k in overrides ==> NUL !in k && NUL !in overrides[k]
  }

  /** One of the orders in which the items of a map can be met. */
  ghost predicate Enumerates(order: seq<(string, string)>, overrides: Overrides) {
    Distinct(order) && Elements(order) == overrides.Items
  }

  lemma {:induction false} EncodedHead(t: string, tokens: seq<string>)
    ensures Encoded([t] + tokens) == t + [NUL] + Encoded(tokens)
  {
    if tokens != [] {
      var init, last := tokens[..|tokens| - 1], tokens[|tokens| - 1];
      EncodedHead(t, init);
      assert ([t] + tokens)[..|tokens|] == [t] + init;
      calc {
        Encoded([t] + tokens);
        (t + [NUL] + Encoded(init)) + last + [NUL];
        t + [NUL] + (Encoded(init) + last + [NUL]);
      }
    }
  }

  /** Splitting at the separator gives the tokens back. */
  lemma {:induction false} Decoded(tokens: seq<string>)
    requires NulFree(tokens)
    ensures Split(Encoded(tokens), NUL) == tokens + [""]
  {
    if tokens != [] {
      var t, rest := tokens[0], tokens[1..];
      assert tokens == [t] + rest;
      EncodedHead(t, rest);
      Decoded(rest);
      SplitHead(t, NUL, Encoded(rest));
    }
  }

  lemma {:induction false} TokensDetermine(c: string, o: seq<(string, string)>, d: string, p: seq<(string, string)>)
    requires Tokens(c, o) == Tokens(d, p)
    ensures c == d && o == p
  {
    TokenCount(c, o);
    TokenCount(d, p);
    if o != [] {
      var o', p' := o[..|o| - 1], p[..|p| - 1];
      var n := |Tokens(c, o)|;
      assert Tokens(c, o') == Tokens(c, o)[..n - 2] && Tokens(d, p') == Tokens(d, p)[..n - 2];
      TokensDetermine(c, o', d, p');
      assert o[|o| - 1] == (Tokens(c, o)[n - 2], Tokens(c, o)[n - 1])
        && p[|p| - 1] == (Tokens(d, p)[n - 2], Tokens(d, p)[n - 1]);
      assert o == o' + [o[|o| - 1]] && p == p' + [p[|p| - 1]];
    }
  }

  lemma {:induction false} TokenCount(c: string, o: seq<(string, string)>)
    ensures |Tokens(c, o)| == 1 + 2 * |o|
  {
    if o != [] {
      TokenCount(c, o[..|o| - 1]);
    }
  }

  lemma {:induction false} CleanTokens(c: string, o: seq<(string, string)>, m: Overrides)
    requires Clean(c, m) && Elements(o) <= m.Items
    ensures NulFree(Tokens(c, o))
  {
    if o != [] {
      var init, last := o[..|o| - 1], o[|o| - 1];
      assert last in Elements(o);
      assert Elements(init) <= Elements(o);
      CleanTokens(c, init, m);
    }
  }

  lemma SameItems(m: Overrides, n: Overrides)
    requires m.Items == n.Items
    ensures m == n
  {
    forall k | k in m ensures k in n && n[k] == m[k] {
      assert (k, m[k]) in m.Items;
    }
    forall k | k in n ensures k in m {
      assert (k, n[k]) in n.Items;
    }
  }

  /** Without separators in them, equal keys come from equal arguments. */
  lemma KeysDetermine(c: string, m: Overrides, o: seq<(string, string)>, d: string, n: Overrides,
                      p: seq<(string, string)>)
    requires Clean(c, m) && Enumerates(o, m) && Clean(d, n) && Enumerates(p, n)
    requires KeyOf(c, o) == KeyOf(d, p)
    ensures c == d && m == n
  {
    CleanTokens(c, o, m);
    CleanTokens(d, p, n);
    Decoded(Tokens(c, o));
    Decoded(Tokens(d, p));
    assert (Tokens(c, o) + [""])[..|Tokens(c, o)|] == Tokens(c, o);
    assert (Tokens(d, p) + [""])[..|Tokens(d, p)|] == Tokens(d, p);
    TokensDetermine(c, o, d, p);
    SameItems(m, n);
  }

  /** With separators, different arguments share a key. */
  lemma SeparatorsCollide(c: string, k: string, v: string)
    ensures KeyOf(c + [NUL] + k + [NUL] + v, []) == KeyOf(c, [(k, v)])
  {
    assert [(k, v)][..0] == [];
    assert Tokens(c, [(k, v)]) == [c, k, v];
    EncodedHead(c, [k, v]);
    EncodedHead(k, [v]);
    EncodedHead(v, []);
    assert [c] + [k, v] == [c, k, v] && [k] + [v] == [k, v] && [v] + [] == [v];
    EncodedHead(c + [NUL] + k + [NUL] + v, []);
    assert [c + [NUL] + k + [NUL] + v] + [] == [c + [NUL] + k + [NUL] + v];
  }

  /******* The cache *******/

  class CachingSource {
    /** What the target answers until it is updated. */
    var target: (string, Overrides) -> Answer
    var cache: map<string, string>

    /** Whatever a key was or will be built from, the cache holds the target's answer. */
    ghost predicate Valid()
      reads this
    {
      forall c, m, o :: Clean(c, m) && Enumerates(o, m) && KeyOf(c, o) in cache ==>
        target(c, m) == Resolved(cache[KeyOf(c, o)])
    }

    constructor (target: (string, Overrides) -> Answer)
      ensures Valid() && this.target == target
    {
      this.target := target;
      cache := map[];
    }

    /** The target may change its answers; the cache forgets them. */
    method Update(answers: (string, Overrides) -> Answer)
      modifies this
      ensures Valid() && target == answers
    {
      cache := map[];
      target := answers;
    }

    /** `Version`: the answer of the target, cached or not. */
    method Version(channel: string, overrides: Overrides) returns (r: Answer)
      requires Valid() && Clean(channel, overrides)
      modifies this`cache
      ensures Valid() && r == target(channel, overrides)
    {
      var key, order := BuildKey(channel, overrides);
      if key in cache {
        return Resolved(cache[key]);
      }
      r := target(channel, overrides);
      if r.Error? {
        return;
      }
      forall c, m, o | Clean(c, m) && Enumerates(o, m) && KeyOf(c, o) == key ensures target(c, m) == r {
        KeysDetermine(c, m, o, channel, overrides, order);
      }
      cache := cache[key := r.version];
    }
  }

  /** Walks over the overrides. */
  method BuildKey(channel: string, overrides: Overrides) returns (key: string, ghost order: seq<(string, string)>)
    ensures Enumerates(order, overrides) && key == KeyOf(channel, order)
  {
    key := channel + [NUL];
    order := [];
    assert Encoded([channel]) == [] + channel + [NUL];
    var todo := overrides.Keys;
    while todo != {}
      invariant todo <= overrides.Keys && key == KeyOf(channel, order) && Distinct(order)
      invariant Elements(order) == Met(overrides, todo)
    {
      var k :| k in todo;
      var v := overrides[k];
      assert (k, v) !in Elements(order);
      key := key + k + [NUL] + v + [NUL];
      KeySnoc(channel, order, k, v);
      MetSnoc(overrides, todo, k);
      assert Elements(order + [(k, v)]) == Elements(order) + {(k, v)};
      order := order + [(k, v)];
      todo := todo - {k};
    }
    assert Met(overrides, {}) == overrides.Items;
  }

  lemma KeySnoc(c: string, o: seq<(string, string)>, k: string, v: string)
    ensures KeyOf(c, o + [(k, v)]) == KeyOf(c, o) + k + [NUL] + v + [NUL]
  {
    assert (o + [(k, v)])[..|o|] == o;
    var ts := Tokens(c, o);
    assert (ts + [k])[..|ts|] == ts;
    assert Encoded(ts + [k]) == Encoded(ts) + k + [NUL];
    assert (ts + [k, v])[..|ts| + 1] == ts + [k];
    assert Encoded(ts + [k, v]) == Encoded(ts + [k]) + v + [NUL];
    assert Tokens(c, o + [(k, v)]) == ts + [k, v];
  }

  ghost function Met(m: Overrides, todo: set<string>): set<(string, string)> {
    set x | x in m.Items && x.0 !in todo
  }

  lemma MetSnoc(m: Overrides, todo: set<string>, k: string)
    requires k in todo && k in m
    ensures Met(m, todo - {k}) == Met(m, todo) + {(k, m[k])}
  {
  }
}
