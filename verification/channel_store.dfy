/**
 * The monitored-channel registry (channel_store.py): an in-memory set of channel
 * names that `add_channel` and `remove_channel` change in place.
 */
module ChannelStore {

  /** The four names the module-level set starts with. */
  const InitialChannels: set<string> := {
    "TestsTal",
    "Gaza Now - בעברית 🇮🇱",
    "אבו עלי אקספרס",
    "הרגע הזמנתי"
  }

  // ---------------------------------------------------------------------------
  // Python's ordering of strings: by code point, a proper prefix first.

  predicate LessEq(a: string, b: string) {
    a == [] || (b != [] && (a[0] < b[0] || (a[0] == b[0] && LessEq(a[1..], b[1..]))))
  }

  predicate Less(a: string, b: string) {
    LessEq(a, b) && a != b
  }

  lemma {:induction false} LessEqTotal(a: string, b: string)
    ensures LessEq(a, b) || LessEq(b, a)
  {
    if a != [] && b != [] && a[0] == b[0] {
      LessEqTotal(a[1..], b[1..]);
    }
  }

  lemma {:induction false} LessEqTransitive(a: string, b: string, c: string)
    requires LessEq(a, b) && LessEq(b, c)
    ensures LessEq(a, c)
  {
    if a != [] && b != [] && c != [] && a[0] == b[0] == c[0] {
      LessEqTransitive(a[1..], b[1..], c[1..]);
    }
  }

  /** Every non-empty finite set of strings has a least element. */
  lemma {:induction false} HasLeast(s: set<string>)
    requires s != {}
    ensures exists m :: m in s && forall y :: y in s ==> LessEq(m, y)
    decreases |s|
  {
    var x :| x in s;
    var rest := s - {x};
    LessEqTotal(x, x);
    if rest == {} {
      forall y | y in s ensures LessEq(x, y) {
        assert y !in rest;
      }
    } else {
      HasLeast(rest);
      var m :| m in rest && forall y :: y in rest ==> LessEq(m, y);
      LessEqTotal(m, x);
      var least := if LessEq(m, x) then m else x;
      forall y | y in s ensures LessEq(least, y) {
        if y == x {
          assert LessEq(least, x);
        } else {
          assert y in rest;
          if least == x {
            LessEqTransitive(x, m, y);
          }
        }
      }
      assert least in s;
    }
  }

  /** Strictly increasing, hence without duplicates. */
  predicate StrictlySorted(list: seq<string>) {
    forall i, j :: 0 <= i < j < |list| ==> Less(list[i], list[j])
  }

  /** `sorted(list(s))`: the elements of the set, each once, in increasing order. */
  method SortedList(s: set<string>) returns (list: seq<string>)
    ensures StrictlySorted(list)
    ensures forall x :: x in list <==> x in s
    ensures |list| == |s|
  {
    list := [];
    var rest := s;
    while rest != {}
      invariant rest <= s
      invariant forall x :: x in list <==> x in s && x !in rest
      invariant forall x, y :: x in list && y in rest ==> Less(x, y)
      invariant StrictlySorted(list)
      invariant |list| + |rest| == |s|
      decreases |rest|
    {
      HasLeast(rest);
      var m :| m in rest && forall y :: y in rest ==> LessEq(m, y);
      list := list + [m];
      rest := rest - {m};
    }
  }

  class Registry {
    /** `_monitored_channels`. */
    var channels: set<string>

    constructor ()
      ensures channels == InitialChannels
    {
      channels := InitialChannels;
    }

    /** `get_monitored_channels`: the current names, sorted, each once. */
    method Get() returns (list: seq<string>)
      ensures StrictlySorted(list)
      ensures forall x :: x in list <==> x in channels
      ensures |list| == |channels|
    {
      list := SortedList(channels);
    }

    /** `add_channel`: true exactly when the name was new; the set gains it and nothing else. */
    method Add(channel: string) returns (added: bool)
      modifies this
      ensures added <==> channel !in old(channels)
      ensures channels == old(channels) + {channel}
    {
      if channel in channels {
        return false;
      }
      channels := channels + {channel};
      return true;
    }

    /** `remove_channel`: true exactly when the name was present; the set loses it and nothing else. */
    method Remove(channel: string) returns (removed: bool)
      modifies this
      ensures removed <==> channel in old(channels)
      ensures channels == old(channels) - {channel}
    {
      if channel !in channels {
        return false;
      }
      channels := channels - {channel};
      return true;
    }
  }

  /** Adding twice and removing twice a fresh name answers true, false, true, false and restores the set. */
  method AddTwiceRemoveTwice(registry: Registry, channel: string)
    returns (add1: bool, add2: bool, remove1: bool, remove2: bool)
    requires channel !in registry.channels
    modifies registry
    ensures add1 && !add2 && remove1 && !remove2
    ensures registry.channels == old(registry.channels)
  {
    add1 := registry.Add(channel);
    add2 := registry.Add(channel);
    remove1 := registry.Remove(channel);
    remove2 := registry.Remove(channel);
  }
}
