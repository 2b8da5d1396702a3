/** The `/ban` command of commands.py: it only flags the user in
    `banned_users`; it deletes nothing and leaves `users` alone. */
module Commands {
  import opened Base
  import opened LedgerStore

  datatype Reply =
    | NoPermission
    | NowBanned
    | AlreadyBanned
    /** `data['banned_users']` raised KeyError: the document has no such key. */
    | MissingBannedUsers

  function Load(file: Option<Ledger>): Ledger
  {
    LoadData(file, EMPTY_WITH_BANS)
  }

  /** `is_admin`: compares the id's decimal string with the entries of
      `admins`, so only an entry stored as a JSON string can match, and a
      string entry admits one id at most. */
  predicate IsAdmin(data: Ledger, userId: nat)
    ensures IsAdmin(data, userId) <==> exists a :: a in data.admins && a.StrIdent? && a.s == Decimal(userId)
    ensures (forall a :: a in data.admins ==> a.IntIdent?) ==> !IsAdmin(data, userId)
  {
    StrIdent(Decimal(userId)) in data.admins
  }

  /** A single admin entry admits at most one caller: distinct ids have
      distinct decimal strings. */
  lemma OneEntryOneAdmin(data: Ledger, a: nat, b: nat)
    requires |data.admins| == 1
    ensures IsAdmin(data, a) && IsAdmin(data, b) ==> a == b
  {
    DecimalInjective(a, b);
  }

  predicate NoDuplicates(xs: seq<Ident>)
  {
    forall i, j :: 0 <= i < j < |xs| ==> xs[i] != xs[j]
  }

  method Ban(file: Option<Ledger>, caller: nat, target: nat) returns (reply: Reply, written: Option<Ledger>)
    ensures !IsAdmin(Load(file), caller) ==> reply == NoPermission && written == None
    ensures IsAdmin(Load(file), caller) && Load(file).banned.None? ==> reply == MissingBannedUsers && written == None
    ensures IsAdmin(Load(file), caller) && Load(file).banned.Some? && StrIdent(Decimal(target)) in Load(file).banned.value ==>
              reply == AlreadyBanned && written == None
    // an admin's ban of an id not yet listed in an existing `banned_users` is
    // saved, and nothing else is
    ensures written.Some? <==>
              && IsAdmin(Load(file), caller) && Load(file).banned.Some?
              && StrIdent(Decimal(target)) !in Load(file).banned.value
    ensures written.Some? ==>
              var data := Load(file);
              && reply == NowBanned
              && data.banned.Some?
              && written.value == data.(banned := Some(data.banned.value + [StrIdent(Decimal(target))]))
    // what the write keeps: no duplicates in `banned_users`, `users` and `admins` untouched
    ensures written.Some? && NoDuplicates(Load(file).banned.value) ==> NoDuplicates(written.value.banned.value)
    ensures written.Some? ==> written.value.users == Load(file).users && written.value.admins == Load(file).admins
  {
    if !IsAdmin(Load(file), caller) {
      return NoPermission, None;
    }
    var data := Load(file);
    if data.banned.None? {
      return MissingBannedUsers, None;
    }
    var id := StrIdent(Decimal(target));
    if id !in data.banned.value {
      data := data.(banned := Some(data.banned.value + [id]));
      written := Some(data);
      reply := NowBanned;
    } else {
      reply, written := AlreadyBanned, None;
    }
  }

  /** Banning twice in a row saves at most once: the second call finds the id
      already in the document the first call saved. */
  method BanTwice(file: Option<Ledger>, caller: nat, target: nat) returns (first: Option<Ledger>, second: Option<Ledger>)
    ensures first.Some? <==>
              && IsAdmin(Load(file), caller) && Load(file).banned.Some?
              && StrIdent(Decimal(target)) !in Load(file).banned.value
    ensures first.Some? ==> second == None
  {
    var _, w := Ban(file, caller, target);
    first := w;
    second := None;
    if w.Some? {
      var _, w' := Ban(w, caller, target);
      second := w';
    }
  }
}
