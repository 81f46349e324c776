/** The SSE hub's objects: per-user slices of channels changed in place, and channels that never make a sender wait. */
module Hub {
  import opened Domain

  const MAX_SUBS_PER_USER := 10
  const CHANNEL_CAPACITY := 16

  // A buffered channel: what was sent and not yet received.
  class Channel {
    var buffer: seq<Notification>

    constructor ()
      ensures buffer == []
    {
      buffer := [];
    }

    // select { case ch <- n: default: }
    method TrySend(n: Notification)
      modifies this
      ensures buffer == Offered(old(buffer), n)
      ensures buffer == if |old(buffer)| < 16 then old(buffer) + [n] else old(buffer)
    {
      if |buffer| < CHANNEL_CAPACITY {
        buffer := buffer + [n];
      }
    }

    // case n := <-ch
    method Receive() returns (n: Notification)
      requires buffer != []
      modifies this
      ensures old(buffer) == [n] + buffer
    {
      n := buffer[0];
      buffer := buffer[1..];
    }
  }

  function Offered(buffer: seq<Notification>, n: Notification): seq<Notification> {
    if |buffer| < CHANNEL_CAPACITY then buffer + [n] else buffer
  }

  // A Go slice header: `len` used entries at the front of a backing array.
  datatype Slice = Slice(data: array<Channel?>, len: nat) {
    ghost predicate Valid()
      reads data
    {
      && 0 < len <= data.Length && len <= MAX_SUBS_PER_USER
      && null !in data[..len] && Distinct(data[..len])
    }
  }

  ghost predicate Distinct(xs: seq<Channel?>) {
    forall i, j :: 0 <= i < j < |xs| ==> xs[i] != xs[j]
  }

  class Registry {
    var subs: map<User, Slice>

    ghost function Arrays(): set<object>
      reads this
    {
      set u | u in subs :: subs[u].data as object
    }

    // No empty list, no more than ten, no nil and no duplicate entry, no shared backing array.
    ghost predicate Valid()
      reads this, Arrays()
    {
      && (forall u :: u in subs ==> subs[u].Valid())
      && (forall u, v :: u in subs && v in subs && u != v ==> subs[u].data != subs[v].data)
    }

    ghost function Entries(u: User): seq<Channel?>
      requires Valid()
      reads this, Arrays()
    {
      if u in subs then subs[u].data[..subs[u].len] else []
    }

    // What the list stands for: the set of the user's channels.
    ghost function Members(u: User): set<Channel?>
      requires Valid()
      reads this, Arrays()
    {
      set c | c in Entries(u)
    }

    constructor ()
      ensures Valid() && subs == map[]
    {
      subs := map[];
    }

    // append(s, ch): in place while capacity lasts, else into a larger copy.
    method Append(s: Slice, ch: Channel) returns (s': Slice)
      requires s.len <= s.data.Length
      modifies s.data
      ensures s'.len == s.len + 1 <= s'.data.Length
      ensures s'.data[..s'.len] == old(s.data[..s.len]) + [ch]
      ensures s'.data == s.data || fresh(s'.data)
    {
      if s.len < s.data.Length {
        s.data[s.len] := ch;
        return Slice(s.data, s.len + 1);
      }
      var grown := new Channel?[2 * s.len + 1];
      for i := 0 to s.len
        invariant forall k :: 0 <= k < i ==> grown[k] == s.data[k]
        invariant s.data[..] == old(s.data[..])
      {
        grown[i] := s.data[i];
      }
      grown[s.len] := ch;
      assert grown[..s.len] == s.data[..s.len];
      s' := Slice(grown, s.len + 1);
    }

    // h.subs[userID]: a missing key reads as the empty slice.
    method SliceOf(user: User) returns (s: Slice)
      requires Valid()
      ensures s.len <= s.data.Length && s.data[..s.len] == Entries(user)
      ensures if user in subs then s == subs[user] else fresh(s.data)
    {
      if user in subs {
        return subs[user];
      }
      var none := new Channel?[0];
      s := Slice(none, 0);
    }

    method Subscribe(user: User) returns (ch: Channel?)
      requires Valid()
      modifies this, Arrays()
      ensures Valid()
      ensures ch == null <==> |old(Entries(user))| >= 10
      ensures ch != null ==> fresh(ch) && ch.buffer == [] && Entries(user) == old(Entries(user)) + [ch]
      ensures ch == null ==> Entries(user) == old(Entries(user))
      ensures forall u :: u != user ==> Entries(u) == old(Entries(u))
      ensures fresh(Arrays() - old(Arrays()))
    {
      var s := SliceOf(user);
      if s.len >= MAX_SUBS_PER_USER {
        return null;
      }
      ch := new Channel();
      AddEntry(user, s, ch);
    }

    method AddEntry(user: User, s: Slice, ch: Channel)
      requires Valid() && s.len < MAX_SUBS_PER_USER && s.len <= s.data.Length
      requires s.data[..s.len] == Entries(user) && ch !in Entries(user)
      requires if user in subs then s == subs[user] else forall u :: u in subs ==> subs[u].data != s.data
      modifies this, Arrays(), s.data
      ensures Valid()
      ensures Entries(user) == old(Entries(user)) + [ch]
      ensures forall u :: u != user ==> Entries(u) == old(Entries(u))
      ensures fresh(Arrays() - old(Arrays()) - {s.data})
    {
      ghost var before := Entries(user);
      var s' := Append(s, ch);
      assert s'.data[..s'.len] == before + [ch];
      assert forall u :: u in subs && u != user ==> subs[u].data[..] == old(subs[u].data[..]);
      subs := subs[user := s'];
      assert null !in s'.data[..s'.len] && Distinct(s'.data[..s'.len]);
    }

    // The closure Subscribe returns: swap the last entry into the gap, nil the last, shorten, drop an empty list.
    method Unsubscribe(user: User, ch: Channel)
      requires Valid()
      modifies this, Arrays()
      ensures Valid()
      ensures Members(user) == old(Members(user)) - {ch}
      ensures ch !in old(Members(user)) ==> Entries(user) == old(Entries(user))
      ensures forall u :: u != user ==> Entries(u) == old(Entries(u))
      ensures Arrays() <= old(Arrays())
    {
      if user !in subs {
        return;
      }
      var chans := subs[user];
      for i := 0 to chans.len
        invariant subs == old(subs) && chans == subs[user]
        invariant forall u :: u in subs ==> subs[u].data[..] == old(subs[u].data[..])
        invariant forall k :: 0 <= k < i ==> chans.data[k] != ch
      {
        if chans.data[i] == ch {
          RemoveAt(user, i);
          return;
        }
      }
    }

    method RemoveAt(user: User, i: nat)
      requires Valid() && user in subs && i < subs[user].len
      modifies this, Arrays()
      ensures Valid()
      ensures Members(user) == old(Members(user)) - {old(subs[user].data[i])}
      ensures forall u :: u != user ==> Entries(u) == old(Entries(u))
      ensures Arrays() <= old(Arrays())
    {
      var chans := subs[user];
      ghost var before := chans.data[..chans.len];
      var s' := SwapOut(chans, i);
      SwapRemoves(before, i);
      assert forall u :: u in subs && u != user ==> subs[u].data[..] == old(subs[u].data[..]);
      subs := if s'.len == 0 then subs - {user} else subs[user := s'];
      assert Entries(user) == s'.data[..s'.len];
    }

    // chans[i] = chans[last]; chans[last] = nil; chans[:last], all in the same backing array.
    method SwapOut(s: Slice, i: nat) returns (s': Slice)
      requires i < s.len <= s.data.Length
      modifies s.data
      ensures s' == Slice(s.data, s.len - 1) && s.data[s.len - 1] == null
      ensures s'.data[..s'.len] == old(s.data[..s.len])[i := old(s.data[s.len - 1])][..s'.len]
    {
      var last := s.len - 1;
      s.data[i] := s.data[last];
      s.data[last] := null;
      s' := Slice(s.data, last);
    }

    // The copy Broadcast takes under the lock.
    method Snapshot(user: User) returns (chans: array<Channel?>)
      requires Valid()
      ensures fresh(chans) && chans[..] == Entries(user)
    {
      if user !in subs {
        chans := new Channel?[0];
        return;
      }
      var s := subs[user];
      chans := new Channel?[s.len];
      for i := 0 to s.len
        invariant forall k :: 0 <= k < i ==> chans[k] == s.data[k]
      {
        chans[i] := s.data[i];
      }
    }
  }

  // Swap-removal takes exactly the one entry out and keeps the rest distinct and non-nil.
  lemma SwapRemoves(xs: seq<Channel?>, i: nat)
    requires i < |xs| && Distinct(xs) && null !in xs
    ensures var ys := xs[i := xs[|xs| - 1]][..|xs| - 1];
            && Distinct(ys) && null !in ys
            && (set c | c in ys) == (set c | c in xs) - {xs[i]}
  {
    var last := |xs| - 1;
    var ys := xs[i := xs[last]][..last];
    forall c
      ensures c in ys <==> c in xs && c != xs[i]
    {
      if c in xs && c != xs[i] {
        var k :| 0 <= k < |xs| && xs[k] == c;
        assert if k == last then ys[i] == c else ys[k] == c;
      }
    }
  }

  // A snapshot taken before a removal still holds the removed channel, wherever the swap wrote.
  method SnapshotOutlivesRemoval(r: Registry, user: User, ch: Channel) returns (chans: array<Channel?>)
    requires r.Valid()
    modifies r, r.Arrays()
    ensures r.Valid() && chans[..] == old(r.Entries(user))
    ensures r.Members(user) == old(r.Members(user)) - {ch}
  {
    chans := r.Snapshot(user);
    r.Unsubscribe(user, ch);
  }
}
