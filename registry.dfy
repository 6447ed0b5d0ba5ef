/** The presence table `audioUsers` of server.js: a JavaScript object from
    socket id to username. Socket ids are non-numeric strings, so the object
    enumerates its keys in insertion order, and assigning to an existing key
    keeps that key where it was. The table is therefore modelled as an ordered
    sequence of (socket id, username) pairs with distinct socket ids. */
module Registry {
  import opened Options
  import opened Signaling

  type Entry = (SocketId, Username)

  /** Object keys are distinct. */
  ghost predicate UniqueIds(t: seq<Entry>) {
    forall i, j :: 0 <= i < j < |t| ==> t[i].0 != t[j].0
  }

  /** `audioUsers[sid]`: the username stored under `sid`, if any. */
  function Lookup(t: seq<Entry>, sid: SocketId): (r: Option<Username>)
    ensures r.None? <==> forall i :: 0 <= i < |t| ==> t[i].0 != sid
  {
    if t == [] then None
    else if t[0].0 == sid then Some(t[0].1)
    else Lookup(t[1..], sid)
  }

  /** The place of `sid` in enumeration order. */
  function Position(t: seq<Entry>, sid: SocketId): (k: nat)
    requires Lookup(t, sid).Some?
    ensures k < |t| && t[k] == (sid, Lookup(t, sid).value)
    ensures forall j :: 0 <= j < k ==> t[j].0 != sid
  {
    if t[0].0 == sid then 0 else 1 + Position(t[1..], sid)
  }

  /** `audioUsers[sid] = name`: overwrite in place, or add at the end. */
  function Put(t: seq<Entry>, sid: SocketId, name: Username): (r: seq<Entry>)
    ensures |r| == if Lookup(t, sid).None? then |t| + 1 else |t|
    ensures (sid, name) in r
  {
    if t == [] then [(sid, name)]
    else if t[0].0 == sid then [(sid, name)] + t[1..]
    else [t[0]] + Put(t[1..], sid, name)
  }

  /** After `Put`, `sid` reads back `name` and every other socket reads what it did before. */
  lemma {:induction false} PutLookup(t: seq<Entry>, sid: SocketId, name: Username)
    ensures Lookup(Put(t, sid, name), sid) == Some(name)
    ensures forall s :: s != sid ==> Lookup(Put(t, sid, name), s) == Lookup(t, s)
  {
    if t != [] && t[0].0 != sid {
      PutLookup(t[1..], sid, name);
    }
  }

  /** `Put` overwrites an existing entry where it stands and appends a new one. */
  lemma {:induction false} PutInPlace(t: seq<Entry>, sid: SocketId, name: Username)
    ensures Lookup(t, sid).None? ==> Put(t, sid, name) == t + [(sid, name)]
    ensures Lookup(t, sid).Some? ==> Put(t, sid, name) == t[Position(t, sid) := (sid, name)]
  {
    if t != [] && t[0].0 != sid {
      PutInPlace(t[1..], sid, name);
      if Lookup(t, sid).None? {
        assert t == [t[0]] + t[1..];
      } else {
        assert Position(t, sid) == 1 + Position(t[1..], sid);
      }
    }
  }

  /** `Put` keeps socket ids distinct. */
  lemma PutUnique(t: seq<Entry>, sid: SocketId, name: Username)
    requires UniqueIds(t)
    ensures UniqueIds(Put(t, sid, name))
  {
    PutInPlace(t, sid, name);
  }

  /** `delete audioUsers[sid]`: drop the entry, keep the others in order. */
  function Remove(t: seq<Entry>, sid: SocketId): (r: seq<Entry>)
    ensures |r| <= |t|
    ensures forall i :: 0 <= i < |r| ==> r[i].0 != sid
  {
    if t == [] then []
    else if t[0].0 == sid then Remove(t[1..], sid)
    else [t[0]] + Remove(t[1..], sid)
  }

  /** After `Remove`, `sid` has no entry and every other socket reads what it did before. */
  lemma {:induction false} RemoveLookup(t: seq<Entry>, sid: SocketId)
    ensures Lookup(Remove(t, sid), sid) == None
    ensures forall s :: s != sid ==> Lookup(Remove(t, sid), s) == Lookup(t, s)
  {
    if t != [] {
      RemoveLookup(t[1..], sid);
    }
  }

  /** `Remove` of an absent socket changes nothing. */
  lemma {:induction false} RemoveAbsent(t: seq<Entry>, sid: SocketId)
    requires Lookup(t, sid).None?
    ensures Remove(t, sid) == t
  {
    if t != [] {
      RemoveAbsent(t[1..], sid);
      assert t == [t[0]] + t[1..];
    }
  }

  /** `Remove` of a present socket cuts exactly its entry out. */
  lemma {:induction false} RemoveAt(t: seq<Entry>, sid: SocketId)
    requires UniqueIds(t) && Lookup(t, sid).Some?
    ensures Remove(t, sid) == t[..Position(t, sid)] + t[Position(t, sid) + 1..]
  {
    if t[0].0 == sid {
      assert Lookup(t[1..], sid).None?;
      RemoveAbsent(t[1..], sid);
    } else {
      RemoveAt(t[1..], sid);
      var p := Position(t[1..], sid);
      assert t[..1 + p] == [t[0]] + t[1..][..p];
      assert t[1 + p + 1..] == t[1..][p + 1..];
    }
  }

  /** `Remove` of an absent socket changes nothing; of a present one it cuts
      exactly that entry out, the others keeping their order. */
  lemma RemoveInPlace(t: seq<Entry>, sid: SocketId)
    ensures Lookup(t, sid).None? ==> Remove(t, sid) == t
    ensures UniqueIds(t) && Lookup(t, sid).Some? ==>
              Remove(t, sid) == t[..Position(t, sid)] + t[Position(t, sid) + 1..]
  {
    if Lookup(t, sid).None? {
      RemoveAbsent(t, sid);
    } else if UniqueIds(t) {
      RemoveAt(t, sid);
    }
  }

  /** `Remove` keeps socket ids distinct. */
  lemma RemoveUnique(t: seq<Entry>, sid: SocketId)
    requires UniqueIds(t)
    ensures UniqueIds(Remove(t, sid))
  {
    RemoveInPlace(t, sid);
  }

  /** `Object.values(audioUsers)`: the usernames in table order, duplicates kept. */
  function Names(t: seq<Entry>): (r: seq<Username>)
    ensures |r| == |t|
    ensures forall n :: n in r <==> exists i :: 0 <= i < |t| && t[i].1 == n
  {
    var r := seq(|t|, i requires 0 <= i < |t| => t[i].1);
    assert forall i :: 0 <= i < |t| ==> r[i] == t[i].1;
    r
  }

  /** Entry `k` is the first one, in enumeration order, named `name`. */
  ghost predicate FirstNamed(t: seq<Entry>, name: Username, k: int) {
    0 <= k < |t| && t[k].1 == name && forall j :: 0 <= j < k ==> t[j].1 != name
  }

  /** Where a relay `for (sid in audioUsers)` loop with `break` stops when
      looking for `name`: the first entry so named, or `|t|` if there is none. */
  function HolderAt(t: seq<Entry>, name: Username): (k: nat)
    ensures k <= |t|
    ensures forall j :: 0 <= j < k ==> t[j].1 != name
    ensures k < |t| ==> t[k].1 == name
  {
    if t == [] then 0
    else if t[0].1 == name then 0
    else 1 + HolderAt(t[1..], name)
  }

  /** The socket the relay forwards a payload addressed to `name` to, or
      `None` when nobody has that name. */
  function Holder(t: seq<Entry>, name: Username): (r: Option<SocketId>)
    ensures r.None? <==> forall i :: 0 <= i < |t| ==> t[i].1 != name
    ensures r.Some? ==> exists k :: FirstNamed(t, name, k) && t[k].0 == r.value
    ensures forall k :: FirstNamed(t, name, k) ==> r == Some(t[k].0)
  {
    var k := HolderAt(t, name);
    if k < |t| then
      assert FirstNamed(t, name, k);
      Some(t[k].0)
    else None
  }

  /** A socket that joins under a name no other socket uses is where every
      payload addressed to that name goes next. */
  lemma {:induction false} JoinedNameRoutesToJoiner(t: seq<Entry>, sid: SocketId, name: Username)
    requires forall i :: 0 <= i < |t| && t[i].0 != sid ==> t[i].1 != name
    ensures Holder(Put(t, sid, name), name) == Some(sid)
  {
    var r := Put(t, sid, name);
    PutInPlace(t, sid, name);
    var p := if Lookup(t, sid).Some? then Position(t, sid) else |t|;
    assert p < |r| && r[p] == (sid, name);
    forall j | 0 <= j < p
      ensures r[j].1 != name
    {
      assert r[j] == t[j] && t[j].0 != sid;
    }
    assert FirstNamed(r, name, p);
  }

  /** Once the only socket holding a name has left, payloads addressed to
      that name are dropped. */
  lemma {:induction false} LeftNameIsDropped(t: seq<Entry>, sid: SocketId, name: Username)
    requires forall i :: 0 <= i < |t| && t[i].0 != sid ==> t[i].1 != name
    ensures Holder(Remove(t, sid), name) == None
  {
    var r := Remove(t, sid);
    RemoveLookup(t, sid);
    if Holder(r, name).Some? {
      var k :| FirstNamed(r, name, k) && r[k].0 == Holder(r, name).value;
      assert Lookup(r, r[k].0).Some?;
      if r[k].0 == sid {
        assert false;
      } else {
        RemoveKeepsEntry(t, sid, r[k]);
      }
    }
  }

  /** Every entry that survives `Remove` was in the table before. */
  lemma {:induction false} RemoveKeepsEntry(t: seq<Entry>, sid: SocketId, e: Entry)
    requires e in Remove(t, sid)
    ensures e in t && e.0 != sid
  {
    if t != [] {
      if t[0].0 == sid {
        RemoveKeepsEntry(t[1..], sid, e);
      } else if e != t[0] {
        RemoveKeepsEntry(t[1..], sid, e);
      }
    }
  }

  /** `leave-audio` twice leaves the table as `leave-audio` once. */
  lemma RemoveIdempotent(t: seq<Entry>, sid: SocketId)
    ensures Remove(Remove(t, sid), sid) == Remove(t, sid)
  {
  }

  /** One presence event, as the server applies it to the table. */
  datatype Change = Join(sid: SocketId, name: Username) | Leave(sid: SocketId) | Drop(sid: SocketId)

  /** The table after one event: a handler touches only its own socket's entry. */
  function Apply(t: seq<Entry>, c: Change): (r: seq<Entry>)
    ensures forall s :: s != c.sid ==> Lookup(r, s) == Lookup(t, s)
  {
    match c
    case Join(sid, name) => PutLookup(t, sid, name); Put(t, sid, name)
    case Leave(sid) => RemoveLookup(t, sid); Remove(t, sid)
    case Drop(sid) =>
      RemoveLookup(t, sid);
      var cur := Lookup(t, sid);
      if Filled(cur) then Remove(t, sid) else t
  }

  /** The table after a whole history: a socket with no event in it keeps its entry. */
  function Replay(t: seq<Entry>, cs: seq<Change>): (r: seq<Entry>)
    ensures forall s :: (forall i :: 0 <= i < |cs| ==> cs[i].sid != s) ==> Lookup(r, s) == Lookup(t, s)
    decreases |cs|
  {
    if cs == [] then t else Replay(Apply(t, cs[0]), cs[1..])
  }

  /** What one socket's entry becomes under a history, reading only the
      events of that socket: the last join wins, a leave clears it, and a
      disconnect clears it unless the stored name is falsy. */
  function Track(cur: Option<Username>, cs: seq<Change>, sid: SocketId): (r: Option<Username>)
    ensures (forall i :: 0 <= i < |cs| ==> cs[i].sid != sid) ==> r == cur
    ensures cs != [] && cs[|cs| - 1] == Leave(sid) ==> r == None
    ensures cs != [] && cs[|cs| - 1].Join? && cs[|cs| - 1].sid == sid ==> r == Some(cs[|cs| - 1].name)
    decreases |cs|
  {
    if cs == [] then cur
    else
      var next :=
        if cs[0].sid != sid then cur
        else match cs[0]
          case Join(_, name) => Some(name)
          case Leave(_) => None
          case Drop(_) => if Filled(cur) then None else cur;
      Track(next, cs[1..], sid)
  }

  /** Registry consistency: after any history of joins, leaves and
      disconnects, each socket's entry is determined by that socket's own
      events alone, and the table keeps its ids distinct. */
  lemma {:induction false} ReplayTracksEachSocket(t: seq<Entry>, cs: seq<Change>, sid: SocketId)
    requires UniqueIds(t)
    ensures UniqueIds(Replay(t, cs))
    ensures Lookup(Replay(t, cs), sid) == Track(Lookup(t, sid), cs, sid)
    decreases |cs|
  {
    if cs != [] {
      var t' := Apply(t, cs[0]);
      match cs[0] {
        case Join(s, name) => PutLookup(t, s, name); PutUnique(t, s, name);
        case Leave(s) => RemoveLookup(t, s); RemoveUnique(t, s);
        case Drop(s) => RemoveLookup(t, s); RemoveUnique(t, s);
      }
      assert Lookup(t', sid) ==
        if cs[0].sid != sid then Lookup(t, sid)
        else match cs[0]
          case Join(_, name) => Some(name)
          case Leave(_) => None
          case Drop(_) => var cur := Lookup(t, sid); if Filled(cur) then None else cur;
      ReplayTracksEachSocket(t', cs[1..], sid);
    }
  }
}
