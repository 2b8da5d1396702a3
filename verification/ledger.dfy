/** The ownership ledger: the document kept in data.json.
    `admins` and `banned_users` are JSON lists whose elements may be numbers or
    strings (the bot compares them with both); `users` is a JSON object from a
    stringified user id to the ordered list of subdomain names that user owns.
    A JSON object keeps its insertion order when loaded, and `whois` depends on
    that order, so `users` is an association list rather than a map. */
module LedgerStore {
  import opened Base

  /** A JSON scalar used as a user identifier. */
  datatype Ident = IntIdent(n: int) | StrIdent(s: string)

  /** One key/value pair of the `users` object. */
  datatype Entry = Entry(user: string, names: seq<string>)

  /** `banned` is None when the document has no `banned_users` key. */
  datatype Ledger = Ledger(admins: seq<Ident>, users: seq<Entry>, banned: Option<seq<Ident>>)

  /** The empty document bot.py and views/subdomain_creation.py start from
      when data.json is absent: it has no `banned_users` key. */
  const EMPTY_WITHOUT_BANS := Ledger([], [], None)

  /** The empty document commands.py starts from: it has `banned_users`. */
  const EMPTY_WITH_BANS := Ledger([], [], Some([]))

  /** `load_data()`: the stored document, or the caller's empty default when
      the file is absent (reading and parsing the file are not modelled). */
  function LoadData(file: Option<Ledger>, empty: Ledger): (data: Ledger)
    ensures file.Some? ==> data == file.value
    ensures file.None? ==> data == empty
  {
    if file.Some? then file.value else empty
  }

  /** The keys of the `users` object, in iteration order. */
  function Keys(users: seq<Entry>): (ks: seq<string>)
    ensures |ks| == |users|
    ensures forall i :: 0 <= i < |users| ==> ks[i] == users[i].user
  {
    if users == [] then [] else [users[0].user] + Keys(users[1..])
  }

  /** A loaded JSON object never has a repeated key. */
  predicate UniqueKeys(users: seq<Entry>)
  {
    forall i, j :: 0 <= i < j < |users| ==> users[i].user != users[j].user
  }

  /** `users.get(k)`: the list stored under `k`, from the first entry with that key. */
  function Find(users: seq<Entry>, k: string): (r: Option<seq<string>>)
    ensures r.None? <==> k !in Keys(users)
  {
    if users == [] then None
    else if users[0].user == k then Some(users[0].names)
    else Find(users[1..], k)
  }

  /** `Find` reads the first entry that carries the key. */
  lemma {:induction false} FindFirst(users: seq<Entry>, k: string, i: nat)
    requires i < |users| && users[i].user == k
    requires forall j :: 0 <= j < i ==> users[j].user != k
    ensures Find(users, k) == Some(users[i].names)
  {
    if i > 0 {
      FindFirst(users[1..], k, i - 1);
    }
  }

  /** `users[k] = v`: replaces the value of an existing key in place, or adds
      the key at the end. */
  function Put(users: seq<Entry>, k: string, v: seq<string>): (r: seq<Entry>)
    ensures forall k' :: Find(r, k') == if k' == k then Some(v) else Find(users, k')
  {
    if users == [] then [Entry(k, v)]
    else if users[0].user == k then [Entry(k, v)] + users[1..]
    else
      var r := [users[0]] + Put(users[1..], k, v);
      assert r[1..] == Put(users[1..], k, v);
      r
  }

  /** `users[k] = v` keeps every key where it was and puts a new key last. */
  lemma {:induction false} PutKeys(users: seq<Entry>, k: string, v: seq<string>)
    ensures Keys(Put(users, k, v)) == if k in Keys(users) then Keys(users) else Keys(users) + [k]
  {
    if users != [] {
      var u, t := users[0], users[1..];
      assert users == [u] + t;
      KeysCons(u, t);
      if u.user == k {
        assert Put(users, k, v) == [Entry(k, v)] + t;
        KeysCons(Entry(k, v), t);
        assert Keys(users)[0] == k;
      } else {
        PutKeys(t, k, v);
        var pt := Put(t, k, v);
        assert Put(users, k, v) == [u] + pt;
        KeysCons(u, pt);
        if k in Keys(t) {
          assert k in Keys(users);
        } else {
          assert k !in Keys(users);
          assert [u.user] + (Keys(t) + [k]) == ([u.user] + Keys(t)) + [k];
        }
      }
    }
  }

  lemma KeysCons(e: Entry, t: seq<Entry>)
    ensures Keys([e] + t) == [e.user] + Keys(t)
  {
    assert ([e] + t)[1..] == t;
  }

  /** `del users[k]`: drops the key and keeps the others in order. */
  function Delete(users: seq<Entry>, k: string): (r: seq<Entry>)
    ensures forall k' :: Find(r, k') == if k' == k then None else Find(users, k')
  {
    if users == [] then []
    else if users[0].user == k then Delete(users[1..], k)
    else
      var rest := Delete(users[1..], k);
      var r := [users[0]] + rest;
      assert r[1..] == rest;
      assert Keys(r) == [users[0].user] + Keys(rest);
      r
  }

  /** Deleting a key that is not there changes nothing. */
  lemma {:induction false} DeleteAbsent(users: seq<Entry>, k: string)
    requires forall j :: 0 <= j < |users| ==> users[j].user != k
    ensures Delete(users, k) == users
  {
    if users != [] {
      assert users[0].user != k;
      DeleteAbsent(users[1..], k);
      assert users == [users[0]] + users[1..];
    }
  }

  /** With unique keys, `del users[k]` cuts out exactly the entry holding `k`. */
  lemma {:induction false} DeleteCutsEntry(users: seq<Entry>, i: nat)
    requires UniqueKeys(users) && i < |users|
    ensures Delete(users, users[i].user) == users[..i] + users[i + 1..]
  {
    var k := users[i].user;
    var rest := users[1..];
    if i == 0 {
      forall j | 0 <= j < |rest| ensures rest[j].user != k {
        assert rest[j] == users[j + 1];
      }
      DeleteAbsent(rest, k);
    } else {
      assert users[0].user != k;
      assert UniqueKeys(rest) by {
        forall a, b | 0 <= a < b < |rest| ensures rest[a].user != rest[b].user {
          assert rest[a] == users[a + 1] && rest[b] == users[b + 1];
        }
      }
      assert rest[i - 1] == users[i];
      DeleteCutsEntry(rest, i - 1);
      assert Delete(users, k) == [users[0]] + Delete(rest, k);
      assert [users[0]] + rest[..i - 1] == users[..i];
      assert rest[i..] == users[i + 1..];
    }
  }

  /** The names owned under `k`, or the empty list when there is no entry. */
  function NamesOf(users: seq<Entry>, k: string): seq<string>
  {
    if Find(users, k).Some? then Find(users, k).value else []
  }

  /** What finalize does on success: create the user's entry with an empty list
      if it is missing, then append `name` to that list. */
  function AddSubdomain(data: Ledger, k: string, name: string): (r: Ledger)
    ensures forall k' :: Find(r.users, k') == if k' == k then Some(NamesOf(data.users, k) + [name]) else Find(data.users, k')
    ensures UniqueKeys(data.users) ==> UniqueKeys(r.users)
    ensures r.admins == data.admins && r.banned == data.banned
  {
    PutKeepsUniqueKeys(data.users, k, NamesOf(data.users, k) + [name]);
    data.(users := Put(data.users, k, NamesOf(data.users, k) + [name]))
  }

  /** The first entry's key does not recur, and the rest has unique keys. */
  lemma UniqueKeysSplit(users: seq<Entry>)
    requires UniqueKeys(users) && users != []
    ensures users[0].user !in Keys(users[1..]) && UniqueKeys(users[1..])
  {
    var t := users[1..];
    var kt := Keys(t);
    forall j | 0 <= j < |kt| ensures kt[j] != users[0].user {
      assert kt[j] == t[j].user == users[j + 1].user;
    }
    forall a, b | 0 <= a < b < |t| ensures t[a].user != t[b].user {
      assert t[a] == users[a + 1] && t[b] == users[b + 1];
    }
  }

  /** An entry whose key is new can go in front of entries with unique keys. */
  lemma UniqueKeysCons(e: Entry, t: seq<Entry>)
    requires UniqueKeys(t) && e.user !in Keys(t)
    ensures UniqueKeys([e] + t)
  {
    var r := [e] + t;
    var kt := Keys(t);
    forall i, j | 0 <= i < j < |r| ensures r[i].user != r[j].user {
      assert r[j] == t[j - 1] && r[j].user == kt[j - 1];
      if i > 0 {
        assert r[i] == t[i - 1];
      }
    }
  }

  /** `users[k] = v` never creates a second entry for a key. */
  lemma {:induction false} PutKeepsUniqueKeys(users: seq<Entry>, k: string, v: seq<string>)
    ensures UniqueKeys(users) ==> UniqueKeys(Put(users, k, v))
  {
    if UniqueKeys(users) && users != [] {
      var t := users[1..];
      UniqueKeysSplit(users);
      if users[0].user == k {
        UniqueKeysCons(Entry(k, v), t);
        assert Put(users, k, v) == [Entry(k, v)] + t;
      } else {
        PutKeepsUniqueKeys(t, k, v);
        PutKeys(t, k, v);
        UniqueKeysCons(users[0], Put(t, k, v));
        assert Put(users, k, v) == [users[0]] + Put(t, k, v);
      }
    }
  }

  /** `list.remove(x)` for an `x` the list holds (the bot checks membership
      first; Python raises ValueError otherwise): one element goes. */
  function RemoveFirst(s: seq<string>, x: string): (r: seq<string>)
    requires x in s
    ensures |r| == |s| - 1
  {
    assert s == [s[0]] + s[1..];
    if s[0] == x then s[1..]
    else [s[0]] + RemoveFirst(s[1..], x)
  }

  /** A value that occurs in a list has a first position. */
  lemma {:induction false} FirstIndex(s: seq<string>, x: string) returns (i: nat)
    requires x in s
    ensures i < |s| && s[i] == x && forall k :: 0 <= k < i ==> s[k] != x
  {
    if s[0] == x {
      i := 0;
    } else {
      var t := s[1..];
      assert x in t by {
        var p :| 0 <= p < |s| && s[p] == x;
        assert t[p - 1] == x;
      }
      var j := FirstIndex(t, x);
      i := j + 1;
      forall k | 0 <= k < i ensures s[k] != x {
        if k > 0 {
          assert s[k] == t[k - 1];
        }
      }
    }
  }

  /** `list.remove(x)` cuts the list at the first position holding `x`. */
  lemma {:induction false} RemoveFirstAt(s: seq<string>, x: string, i: nat)
    requires i < |s| && s[i] == x && forall k :: 0 <= k < i ==> s[k] != x
    ensures RemoveFirst(s, x) == s[..i] + s[i + 1..]
  {
    if i > 0 {
      var t := s[1..];
      assert s[0] != x;
      assert t[i - 1] == x;
      assert forall k :: 0 <= k < i - 1 ==> t[k] == s[k + 1];
      RemoveFirstAt(t, x, i - 1);
      assert RemoveFirst(s, x) == [s[0]] + RemoveFirst(t, x);
      assert s[..i] + s[i + 1..] == [s[0]] + (t[..i - 1] + t[i..]);
    }
  }

  /** `list.remove(x)` takes away exactly one copy of `x`, so `x` is still in
      the list afterwards exactly when it was there more than once. */
  lemma RemoveFirstCounts(s: seq<string>, x: string)
    requires x in s
    ensures multiset(RemoveFirst(s, x)) == multiset(s) - multiset{x}
    ensures x in RemoveFirst(s, x) <==> multiset(s)[x] > 1
  {
    var i := FirstIndex(s, x);
    RemoveFirstAt(s, x, i);
    CutMultiset(s, i);
  }

  /** Cutting one position out of a list takes one copy of its element out of
      the list's multiset. */
  lemma CutMultiset(s: seq<string>, i: nat)
    requires i < |s|
    ensures multiset(s) == multiset(s[..i] + s[i + 1..]) + multiset{s[i]}
  {
    assert s == s[..i] + [s[i]] + s[i + 1..];
    assert multiset(s) == multiset(s[..i]) + multiset{s[i]} + multiset(s[i + 1..]);
  }

  /** Removing a name that was just appended to a list without it gives the
      list back. */
  lemma RemoveFirstOfAppended(s: seq<string>, x: string)
    requires x !in s
    ensures RemoveFirst(s + [x], x) == s
  {
    RemoveFirstAt(s + [x], x, |s|);
    assert (s + [x])[..|s|] == s;
  }
}
