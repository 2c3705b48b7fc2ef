/** Decoded JSON values, and the two Python operations the relay applies to them. */
module Json {
  import opened Wrappers

  /** A decoded JSON value: the kinds of value of section 3 of RFC 8259
      (false and true share one constructor). Objects are maps, so a key
      occurs at most once, as after decoding with Python's `json`. */
  datatype Json =
    | Null
    | Bool(b: bool)
    | Number(n: real)
    | String(s: string)
    | Array(elems: seq<Json>)
    | Object(members: map<string, Json>)

  /** `v.get(key, default)`: only a decoded object (a Python dict) has `.get`;
      on any other kind Python raises AttributeError, modelled as None. A
      member that is present is returned as it is, whatever its kind. */
  function Get(v: Json, key: string, default: Json): Option<Json> {
    match v
    case Object(members) => Some(if key in members then members[key] else default)
    case _ => None
  }

  /** `v[0]`: the first element of a non-empty list, or the one-character
      string that starts a non-empty string. An empty list or string raises
      IndexError, a dict raises KeyError (decoded keys are strings, never 0),
      and null, booleans and numbers raise TypeError; all are None here. */
  function Index0(v: Json): Option<Json> {
    match v
    case Array(elems) => if |elems| > 0 then Some(elems[0]) else None
    case String(s) => if |s| > 0 then Some(String([s[0]])) else None
    case _ => None
  }

  /** One step of a strict navigation: a member that is present, or the first
      element of a non-empty array. No defaults and no string indexing. */
  datatype Step = Member(key: string) | First

  function Walk(v: Json, step: Step): Option<Json> {
    match step
    case Member(key) => if v.Object? && key in v.members then Some(v.members[key]) else None
    case First => if v.Array? && |v.elems| > 0 then Some(v.elems[0]) else None
  }

  /** Strict navigation along a path: the value reached, or None as soon as a
      step does not apply. This is the reference the relay's lookup is proved
      against. */
  function Follow(v: Json, path: seq<Step>): Option<Json>
    decreases |path|
  {
    if path == [] then Some(v)
    else
      match Walk(v, path[0])
      case None => None
      case Some(w) => Follow(w, path[1..])
  }

  /** Following `p + q` is following `p`, then `q` from where `p` ends. */
  lemma {:induction false} FollowAppend(v: Json, p: seq<Step>, q: seq<Step>)
    ensures Follow(v, p + q) == (match Follow(v, p) case None => None case Some(w) => Follow(w, q))
    decreases |p|
  {
    if p == [] {
      assert p + q == q;
    } else {
      assert (p + q)[0] == p[0];
      assert (p + q)[1..] == p[1..] + q;
      match Walk(v, p[0]) {
        case None =>
        case Some(w) => FollowAppend(w, p[1..], q);
      }
    }
  }

  /** A path whose step at `k` does not apply, to the value reached by the
      steps before it, leads nowhere. */
  lemma FollowStuck(v: Json, path: seq<Step>, k: nat, w: Json)
    requires k < |path|
    requires Follow(v, path[..k]) == Some(w)
    requires Walk(w, path[k]) == None
    ensures Follow(v, path) == None
  {
    assert path == path[..k] + ([path[k]] + path[k + 1..]);
    FollowAppend(v, path[..k], [path[k]] + path[k + 1..]);
  }
}
