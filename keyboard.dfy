/**
 * The keyboard tracker of source/system/keyboard.ts: the set of held key codes (kept in
 * insertion order, the order a JavaScript `Set` iterates in) and the press and release callback
 * lists per key. Callbacks are opaque ids; calling one with a key is recorded in `fired` as the
 * pair (id, key). The `validateEvent` callback given to the constructor is seen only through its
 * verdict on each keydown.
 */
module Keyboard {
  import opened Wrappers
  import Text

  /** `callbacks.forEach(callback => callback(key))`: one call per id, in list order. */
  function Calls(ids: seq<nat>, key: string): (r: seq<(nat, string)>)
    ensures |r| == |ids|
    ensures forall i :: 0 <= i < |ids| ==> r[i] == (ids[i], key)
  {
    if |ids| == 0 then [] else [(ids[0], key)] + Calls(ids[1..], key)
  }

  /** The callback list registered for `key`, with a missing entry (`undefined`) read as none. */
  function Lookup(m: map<string, seq<nat>>, key: string): seq<nat>
  {
    if key in m then m[key] else []
  }

  /** `keys.add(code)`: a code already held keeps its place, a new one goes last. */
  function Add(held: seq<string>, code: string): (r: seq<string>)
    ensures forall x :: x in r <==> x in held || x == code
    ensures Distinct(held) ==> Distinct(r)
    ensures code in held ==> r == held
    ensures code !in held ==> |r| == |held| + 1 && r[..|held|] == held && r[|held|] == code
  {
    if code in held then held else held + [code]
  }

  /** `keys.delete(code)`: the others keep their order. */
  function Remove(held: seq<string>, code: string): (r: seq<string>)
    ensures forall x :: x in r <==> x in held && x != code
    ensures Distinct(held) ==> Distinct(r)
    ensures |r| <= |held|
  {
    if |held| == 0 then []
    else if held[0] == code then Remove(held[1..], code)
    else
      var rest := Remove(held[1..], code);
      assert Distinct(held) ==> held[0] !in held[1..];
      [held[0]] + rest
  }

  predicate Distinct(s: seq<string>)
  {
    forall i, j :: 0 <= i < j < |s| ==> s[i] != s[j]
  }

  /** The release calls `clearKeys` makes: each held key's release callbacks, key by key. */
  function ReleaseAll(held: seq<string>, release: map<string, seq<nat>>): seq<(nat, string)>
  {
    if |held| == 0 then []
    else
      var last := held[|held| - 1];
      ReleaseAll(held[..|held| - 1], release) + Calls(Lookup(release, last), last)
  }

  /** `keys.some(key => held.has(key))`. */
  function AnyHeld(keys: seq<string>, held: seq<string>): (r: bool)
    ensures r <==> exists k :: k in keys && k in held
  {
    if |keys| == 0 then false
    else keys[0] in held || AnyHeld(keys[1..], held)
  }

  /** `m` after `callback` is pushed onto the list of `key`, the list being created if absent. */
  function Append(m: map<string, seq<nat>>, key: string, id: nat): map<string, seq<nat>>
  {
    m[key := Lookup(m, key) + [id]]
  }

  /** `m` after the `forEach` of `onKeyPress`/`onKeyRelease` over `keys`. */
  function Register(m: map<string, seq<nat>>, keys: seq<string>, id: nat): map<string, seq<nat>>
  {
    if |keys| == 0 then m
    else Append(Register(m, keys[..|keys| - 1], id), keys[|keys| - 1], id)
  }

  /** `n` copies of `id`. */
  function Repeat(id: nat, n: nat): (r: seq<nat>)
    ensures |r| == n && forall i :: 0 <= i < n ==> r[i] == id
  {
    if n == 0 then [] else Repeat(id, n - 1) + [id]
  }

  /** The loop of `callbacks.forEach(callback => callback(key))`. */
  method CallEach(ids: seq<nat>, key: string) returns (calls: seq<(nat, string)>)
    ensures calls == Calls(ids, key)
  {
    calls := [];
    var i := 0;
    while i < |ids|
      invariant 0 <= i <= |ids|
      invariant calls == Calls(ids[..i], key)
    {
      calls := calls + [(ids[i], key)];
      i := i + 1;
    }
    assert ids[..|ids|] == ids;
  }

  /** The loop of `clearKeys` over the held keys. */
  method ReleaseEach(held: seq<string>, release: map<string, seq<nat>>) returns (calls: seq<(nat, string)>)
    ensures calls == ReleaseAll(held, release)
  {
    calls := [];
    var i := 0;
    while i < |held|
      invariant 0 <= i <= |held|
      invariant calls == ReleaseAll(held[..i], release)
    {
      var key := held[i];
      var step := CallEach(Lookup(release, key), key);
      assert held[..i + 1][..i] == held[..i];
      calls := calls + step;
      i := i + 1;
    }
    assert held[..|held|] == held;
  }

  /** The loop of `onKeyPress`/`onKeyRelease` over the parsed keys, on the callback map `m`. */
  method AddToEach(m: map<string, seq<nat>>, keys: seq<string>, id: nat) returns (r: map<string, seq<nat>>)
    ensures r == Register(m, keys, id)
  {
    r := m;
    var i := 0;
    while i < |keys|
      invariant 0 <= i <= |keys|
      invariant r == Register(m, keys[..i], id)
    {
      assert Register(m, keys[..i + 1], id) == Append(Register(m, keys[..i], id), keys[i], id) by {
        assert keys[..i + 1][..i] == keys[..i];
      }
      var callbacks := if keys[i] in r then Some(r[keys[i]]) else None;
      if callbacks.None? {
        assert Lookup(r, keys[i]) + [id] == [id];
        r := r[keys[i] := [id]];
      } else {
        r := r[keys[i] := callbacks.value + [id]];
      }
      i := i + 1;
    }
    assert keys[..|keys|] == keys;
  }

  class Keyboard {
    var keys: seq<string>
    var pressCallbacks: map<string, seq<nat>>
    var releaseCallbacks: map<string, seq<nat>>
    var fired: seq<(nat, string)>

    /** `keys` is a set. */
    predicate Valid()
      reads this
    {
      Distinct(keys)
    }

    constructor()
      ensures Valid()
      ensures keys == [] && pressCallbacks == map[] && releaseCallbacks == map[] && fired == []
    {
      keys := [];
      pressCallbacks := map[];
      releaseCallbacks := map[];
      fired := [];
    }

    /** The "keydown" listener for `code`; `accepted` is what `validateEvent` returns, asked only
      * for events that are not repeats. */
    method KeyDown(code: string, repeat: bool, accepted: bool)
      requires Valid()
      modifies this
      ensures Valid()
      ensures repeat || !accepted ==> keys == old(keys) && fired == old(fired)
      ensures !repeat && accepted ==>
        keys == Add(old(keys), code) && fired == old(fired) + Calls(Lookup(pressCallbacks, code), code)
      ensures pressCallbacks == old(pressCallbacks) && releaseCallbacks == old(releaseCallbacks)
    {
      if repeat {
        return;
      }
      if !accepted {
        return;
      }
      keys := Add(keys, code);
      var calls := CallEach(Lookup(pressCallbacks, code), code);
      fired := fired + calls;
    }

    /** The "keyup" listener for `code`. */
    method KeyUp(code: string)
      requires Valid()
      modifies this
      ensures Valid()
      ensures code !in old(keys) ==> keys == old(keys) && fired == old(fired)
      ensures code in old(keys) ==>
        keys == Remove(old(keys), code) && fired == old(fired) + Calls(Lookup(releaseCallbacks, code), code)
      ensures pressCallbacks == old(pressCallbacks) && releaseCallbacks == old(releaseCallbacks)
    {
      if code !in keys {
        return;
      }
      keys := Remove(keys, code);
      var calls := CallEach(Lookup(releaseCallbacks, code), code);
      fired := fired + calls;
    }

    /** `clearKeys`, run on "blur" and when the page becomes hidden: every held key's release
      * callbacks fire, in the order the keys were pressed, and then nothing is held. */
    method ClearKeys()
      requires Valid()
      modifies this
      ensures Valid()
      ensures keys == []
      ensures fired == old(fired) + ReleaseAll(old(keys), releaseCallbacks)
      ensures pressCallbacks == old(pressCallbacks) && releaseCallbacks == old(releaseCallbacks)
    {
      var calls := ReleaseEach(keys, releaseCallbacks);
      fired := fired + calls;
      keys := [];
    }

    /** The "visibilitychange" listener. */
    method VisibilityChange(hidden: bool)
      requires Valid()
      modifies this
      ensures Valid()
      ensures hidden ==> keys == [] && fired == old(fired) + ReleaseAll(old(keys), releaseCallbacks)
      ensures !hidden ==> keys == old(keys) && fired == old(fired)
      ensures pressCallbacks == old(pressCallbacks) && releaseCallbacks == old(releaseCallbacks)
    {
      if hidden {
        ClearKeys();
      }
    }

    /** `checkKey(keys)`: some key of the comma list is held. */
    function CheckKey(list: string): (r: bool)
      reads this
      ensures r <==> exists k :: k in Text.ParseList(list) && k in keys
    {
      AnyHeld(Text.ParseList(list), keys)
    }

    /** `onKeyPress(keys, callback)`. */
    method OnKeyPress(list: string, id: nat)
      modifies this`pressCallbacks
      ensures pressCallbacks == Register(old(pressCallbacks), Text.ParseList(list), id)
    {
      var parsed := Text.ParseList(list);
      pressCallbacks := AddToEach(pressCallbacks, parsed, id);
    }

    /** `onKeyRelease(keys, callback)`. */
    method OnKeyRelease(list: string, id: nat)
      modifies this`releaseCallbacks
      ensures releaseCallbacks == Register(old(releaseCallbacks), Text.ParseList(list), id)
    {
      var parsed := Text.ParseList(list);
      releaseCallbacks := AddToEach(releaseCallbacks, parsed, id);
    }
  }

  // ---------------------------------------------------------------- lemmas

  /** Registering appends the callback to the list of every listed key, once per time the key is
    * listed, creates the lists that were missing, and leaves every other key's entry alone. */
  lemma {:induction false} RegisterKeys(m: map<string, seq<nat>>, keys: seq<string>, id: nat, k: string)
    ensures k in Register(m, keys, id) <==> k in m || k in keys
    ensures k !in keys && k in m ==> Register(m, keys, id)[k] == m[k]
  {
    if |keys| > 0 {
      var init, last := keys[..|keys| - 1], keys[|keys| - 1];
      assert keys == init + [last];
      RegisterKeys(m, init, id, k);
    }
  }

  /** The list a key ends up with: its old list, then the callback once per time the key is listed. */
  lemma {:induction false} RegisterLookup(m: map<string, seq<nat>>, keys: seq<string>, id: nat, k: string)
    ensures Lookup(Register(m, keys, id), k) == Lookup(m, k) + Repeat(id, multiset(keys)[k])
  {
    if |keys| > 0 {
      var init, last := keys[..|keys| - 1], keys[|keys| - 1];
      assert keys == init + [last];
      RegisterLookup(m, init, id, k);
      assert multiset(keys)[k] == multiset(init)[k] + (if k == last then 1 else 0);
      if k == last {
        assert Repeat(id, multiset(keys)[k]) == Repeat(id, multiset(init)[k]) + [id];
      }
    }
  }

  /** What `clearKeys` fires: (id, key) is among the calls exactly when the key is held and the id
    * is one of its release callbacks. */
  lemma {:induction false} ReleaseAllMembers(held: seq<string>, release: map<string, seq<nat>>, id: nat, key: string)
    ensures (id, key) in ReleaseAll(held, release) <==> key in held && id in Lookup(release, key)
  {
    if |held| > 0 {
      var init, last := held[..|held| - 1], held[|held| - 1];
      assert held == init + [last];
      ReleaseAllMembers(init, release, id, key);
      var tail := Calls(Lookup(release, last), last);
      assert (id, key) in tail <==> key == last && id in Lookup(release, last) by {
        if (id, key) in tail {
          var i :| 0 <= i < |tail| && tail[i] == (id, key);
        }
        if key == last && id in Lookup(release, last) {
          var i :| 0 <= i < |Lookup(release, last)| && Lookup(release, last)[i] == id;
          assert tail[i] == (id, key);
        }
      }
    }
  }

  /** Releasing a key undoes pressing it: a key pressed and then released leaves the held set as
    * it was when the key was not already held. */
  lemma {:induction false} RemoveUndoesAdd(held: seq<string>, code: string)
    ensures Remove(Add(held, code), code) == Remove(held, code)
    ensures code !in held ==> Remove(held, code) == held
  {
    RemoveAbsent(held, code);
    if code !in held {
      RemoveSnoc(held, code);
    }
  }

  lemma {:induction false} RemoveAbsent(held: seq<string>, code: string)
    ensures code !in held ==> Remove(held, code) == held
  {
    if |held| > 0 {
      RemoveAbsent(held[1..], code);
      assert held == [held[0]] + held[1..];
    }
  }

  lemma {:induction false} RemoveSnoc(held: seq<string>, code: string)
    ensures Remove(held + [code], code) == Remove(held, code)
  {
    if |held| == 0 {
      assert Remove([code], code) == Remove([], code);
    } else {
      RemoveSnoc(held[1..], code);
      assert (held + [code])[1..] == held[1..] + [code];
    }
  }
}
