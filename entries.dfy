/** `Object.fromEntries`: a list of key/value pairs becomes a record, and a
    key that occurs twice keeps the value of its LAST occurrence. */
module Entries {

  /** The keys occurring in a list of pairs. */
  function Keys<V>(es: seq<(string, V)>): set<string>
  {
    set i | 0 <= i < |es| :: es[i].0
  }

  function FromEntries<V>(es: seq<(string, V)>): (m: map<string, V>)
    ensures m.Keys == Keys(es)
    ensures |es| > 0 ==> es[|es| - 1].0 in m && m[es[|es| - 1].0] == es[|es| - 1].1
    decreases |es|
  {
    if es == [] then map[]
    else
      var last := es[|es| - 1];
      var m := FromEntries(es[..|es| - 1]);
      assert Keys(es) == Keys(es[..|es| - 1]) + {last.0} by {
        forall k | k in Keys(es) ensures k in Keys(es[..|es| - 1]) + {last.0} {
          var i :| 0 <= i < |es| && es[i].0 == k;
          if i < |es| - 1 { assert es[..|es| - 1][i] == es[i]; }
        }
      }
      m[last.0 := last.1]
  }

  /** Concatenating two lists of pairs is a right-biased union of their
      records: on a shared key the later list wins. */
  lemma {:induction false} FromEntriesAppend<V>(a: seq<(string, V)>, b: seq<(string, V)>)
    ensures FromEntries(a + b) == FromEntries(a) + FromEntries(b)
    decreases |b|
  {
    if b == [] {
      assert a + b == a;
    } else {
      var b' := b[..|b| - 1];
      assert (a + b)[..|a + b| - 1] == a + b';
      assert (a + b)[|a + b| - 1] == b[|b| - 1];
      FromEntriesAppend(a, b');
    }
  }

  /** The value a key gets is the one at its last occurrence. */
  lemma {:induction false} FromEntriesLastWins<V>(es: seq<(string, V)>, i: nat)
    requires i < |es|
    requires forall j :: i < j < |es| ==> es[j].0 != es[i].0
    ensures es[i].0 in FromEntries(es) && FromEntries(es)[es[i].0] == es[i].1
    decreases |es|
  {
    if i < |es| - 1 {
      var es' := es[..|es| - 1];
      assert forall j :: i < j < |es'| ==> es'[j] == es[j];
      FromEntriesLastWins(es', i);
    }
  }

  /** Tagging every value of a list with `wrap` tags every value of its record. */
  function Wrap<V, W>(es: seq<(string, V)>, wrap: V -> W): (d: seq<(string, W)>)
    ensures |d| == |es|
    ensures forall i :: 0 <= i < |es| ==> d[i] == (es[i].0, wrap(es[i].1))
  {
    seq(|es|, i requires 0 <= i < |es| => (es[i].0, wrap(es[i].1)))
  }

  lemma {:induction false} FromEntriesWrap<V, W>(es: seq<(string, V)>, wrap: V -> W)
    ensures FromEntries(Wrap(es, wrap)).Keys == FromEntries(es).Keys
    ensures forall k :: k in FromEntries(es) ==> FromEntries(Wrap(es, wrap))[k] == wrap(FromEntries(es)[k])
    decreases |es|
  {
    if es != [] {
      var es' := es[..|es| - 1];
      assert Wrap(es, wrap)[..|es| - 1] == Wrap(es', wrap);
      FromEntriesWrap(es', wrap);
    }
  }
}
