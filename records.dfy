/**
 * A string-keyed JavaScript object built from key/value pairs one after
 * another: later writes to a key overwrite earlier ones. A computed key in an
 * object literal (`{ ...acc, [key]: value }`) defines an own property for every
 * key; an assignment into a plain object (`obj[key] = value`) does too, except
 * for "__proto__", where it runs the inherited prototype setter, which ignores
 * a string.
 */
module Records {

  /** A (key, value) pair, in the order the source writes or lists it. */
  type Pair = (string, string)

  const ProtoKey := "__proto__"

  /** The record after defining every pair of `ps` in order. */
  function ToMap(ps: seq<Pair>): (m: map<string, string>)
    ensures m.Keys == set i | 0 <= i < |ps| :: ps[i].0
  {
    if ps == [] then map[]
    else
      var init, last := ps[..|ps| - 1], ps[|ps| - 1];
      var m := ToMap(init)[last.0 := last.1];
      assert m.Keys == (set i | 0 <= i < |init| :: init[i].0) + {last.0};
      assert forall i :: 0 <= i < |init| ==> init[i] == ps[i];
      m
  }

  /** The value recorded for a key is that of the last pair carrying it. */
  lemma {:induction false} ToMapLastWins(ps: seq<Pair>, i: nat)
    requires i < |ps|
    requires forall j :: i < j < |ps| ==> ps[j].0 != ps[i].0
    ensures ps[i].0 in ToMap(ps) && ToMap(ps)[ps[i].0] == ps[i].1
  {
    if i < |ps| - 1 {
      var init := ps[..|ps| - 1];
      ToMapLastWins(init, i);
    }
  }

  /** Writing further pairs with other keys leaves a key's value alone. */
  lemma {:induction false} ToMapOtherKeys(ps: seq<Pair>, qs: seq<Pair>, k: string)
    requires forall j :: 0 <= j < |qs| ==> qs[j].0 != k
    ensures k in ToMap(ps + qs) <==> k in ToMap(ps)
    ensures k in ToMap(ps) ==> ToMap(ps + qs)[k] == ToMap(ps)[k]
  {
    if qs != [] {
      var qs' := qs[..|qs| - 1];
      assert (ps + qs)[..|ps + qs| - 1] == ps + qs';
      ToMapOtherKeys(ps, qs', k);
    } else {
      assert ps + qs == ps;
    }
  }

  /**
   * The plain object after `obj[key] = value` for every pair of `ps` in order:
   * the defined record without "__proto__".
   */
  function Assigned(ps: seq<Pair>): (m: map<string, string>)
    ensures m == ToMap(ps) - {ProtoKey}
  {
    if ps == [] then map[]
    else
      var init, last := ps[..|ps| - 1], ps[|ps| - 1];
      var prev := Assigned(init);
      if last.0 == ProtoKey then prev else prev[last.0 := last.1]
  }
}
