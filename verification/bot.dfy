/** The ledger side of the slash commands in bot.py. Each command loads the
    document, possibly changes its local copy and saves it; `written` is the
    document passed to `save_data`, or None when nothing was saved. Replies
    stand for the message sent back. */
module Bot {
  import opened Base
  import opened LedgerStore
  import Cloudflare

  datatype Reply =
    | NoPermission
    | YourSubdomains(names: seq<string>)
    | NoSubdomains
    | UserInfo(total: nat, names: seq<string>)
    | UserHasNoSubdomains
    | UserBanned
    | NothingToDelete
    | RegisteredBy(owner: string)
    | NotRegistered
    | SubdomainDeleted
    | DeleteFailed
    | NotOwner

  function Load(file: Option<Ledger>): Ledger
  {
    LoadData(file, EMPTY_WITHOUT_BANS)
  }

  /** `is_admin`: compares the raw integer id with the entries of `admins`,
      so only an entry stored as a JSON number can match. */
  predicate IsAdmin(data: Ledger, userId: nat)
    ensures IsAdmin(data, userId) <==> exists a :: a in data.admins && a.IntIdent? && a.n == userId
    ensures (forall a :: a in data.admins ==> a.StrIdent?) ==> !IsAdmin(data, userId)
  {
    IntIdent(userId) in data.admins
  }

  /** `/list`: the caller's own names; read-only. */
  function ListSubdomains(file: Option<Ledger>, caller: nat): (r: Reply)
    ensures r.YourSubdomains? || r.NoSubdomains?
    ensures r.NoSubdomains? <==> Decimal(caller) !in Keys(Load(file).users)
    ensures r.YourSubdomains? ==> Find(Load(file).users, Decimal(caller)) == Some(r.names)
  {
    var users := Load(file).users;
    var key := Decimal(caller);
    if key in Keys(users) then YourSubdomains(Find(users, key).value) else NoSubdomains
  }

  /** `/userinfo`: admin-only report of another user's names; read-only. */
  function UserInfoOf(file: Option<Ledger>, caller: nat, target: nat): (r: Reply)
    ensures r == NoPermission <==> !IsAdmin(Load(file), caller)
    ensures r.NoPermission? || r.UserInfo? || r.UserHasNoSubdomains?
    ensures r.UserHasNoSubdomains? <==> IsAdmin(Load(file), caller) && Decimal(target) !in Keys(Load(file).users)
    ensures r.UserInfo? ==> Find(Load(file).users, Decimal(target)) == Some(r.names) && r.total == |r.names|
  {
    var data := Load(file);
    if !IsAdmin(data, caller) then NoPermission
    else
      var key := Decimal(target);
      if key in Keys(data.users) then
        var names := Find(data.users, key).value;
        UserInfo(|names|, names)
      else UserHasNoSubdomains
  }

  /** `/ban` in bot.py: one remote delete per owned name, in list order, whose
      results are ignored; then the user's entry is dropped and saved. This
      command does not touch `banned_users`. */
  method BanUser(file: Option<Ledger>, caller: nat, target: nat, provider: string -> Cloudflare.Exchange)
    returns (reply: Reply, deleteCalls: seq<string>, written: Option<Ledger>)
    ensures !IsAdmin(Load(file), caller) ==> reply == NoPermission && deleteCalls == [] && written == None
    ensures IsAdmin(Load(file), caller) && Decimal(target) !in Keys(Load(file).users) ==>
              reply == NothingToDelete && deleteCalls == [] && written == None
    ensures IsAdmin(Load(file), caller) && Decimal(target) in Keys(Load(file).users) ==>
              var data := Load(file);
              && reply == UserBanned
              && deleteCalls == Find(data.users, Decimal(target)).value
              && written == Some(data.(users := Delete(data.users, Decimal(target))))
  {
    var data := Load(file);
    if !IsAdmin(data, caller) {
      return NoPermission, [], None;
    }
    var key := Decimal(target);
    if key !in Keys(data.users) {
      return NothingToDelete, [], None;
    }
    var subdomains := Find(data.users, key).value;
    deleteCalls := [];
    for i := 0 to |subdomains|
      invariant deleteCalls == subdomains[..i]
    {
      deleteCalls := deleteCalls + [subdomains[i]];
      assert deleteCalls == subdomains[..i + 1];
      var _, _ := Cloudflare.DeleteSubdomain(subdomains[i], provider(subdomains[i]));
    }
    data := data.(users := Delete(data.users, key));
    written := Some(data);
    reply := UserBanned;
  }

  /** `/whois`: the first user, in the document's key order, whose list holds
      exactly `domain`; read-only. */
  method Whois(file: Option<Ledger>, caller: nat, domain: string) returns (reply: Reply)
    ensures !IsAdmin(Load(file), caller) <==> reply == NoPermission
    ensures reply.NoPermission? || reply.RegisteredBy? || reply.NotRegistered?
    ensures reply.NotRegistered? ==>
              forall i :: 0 <= i < |Load(file).users| ==> domain !in Load(file).users[i].names
    ensures reply.RegisteredBy? ==>
              var users := Load(file).users;
              exists i :: 0 <= i < |users| && users[i].user == reply.owner && domain in users[i].names
                       && forall j :: 0 <= j < i ==> domain !in users[j].names
  {
    var data := Load(file);
    if !IsAdmin(data, caller) {
      return NoPermission;
    }
    var users := data.users;
    for i := 0 to |users|
      invariant forall j :: 0 <= j < i ==> domain !in users[j].names
    {
      if domain in users[i].names {
        return RegisteredBy(users[i].user);
      }
    }
    reply := NotRegistered;
  }

  /** `/remove`: only an owner may remove, and the first occurrence of the
      name leaves the ledger only when the remote delete reported success. */
  method RemoveSubdomain(file: Option<Ledger>, caller: nat, domain: string, ex: Cloudflare.Exchange)
    returns (reply: Reply, deleteCalls: seq<string>, written: Option<Ledger>)
    ensures var owns := domain in NamesOf(Load(file).users, Decimal(caller));
            && deleteCalls == (if owns then [domain] else [])
            && (!owns ==> reply == NotOwner)
            && (written.Some? <==> owns && Cloudflare.DeleteSucceeds(ex))
            && (owns && !Cloudflare.DeleteSucceeds(ex) ==> reply == DeleteFailed)
    ensures written.Some? ==>
              var data := Load(file);
              var key := Decimal(caller);
              && reply == SubdomainDeleted
              && written.value == data.(users := Put(data.users, key, RemoveFirst(NamesOf(data.users, key), domain)))
  {
    var data := Load(file);
    var key := Decimal(caller);
    if key in Keys(data.users) && domain in Find(data.users, key).value {
      deleteCalls := [domain];
      var ok, _ := Cloudflare.DeleteSubdomain(domain, ex);
      if ok {
        var names := RemoveFirst(Find(data.users, key).value, domain);
        data := data.(users := Put(data.users, key, names));
        written := Some(data);
        reply := SubdomainDeleted;
      } else {
        reply, written := DeleteFailed, None;
      }
    } else {
      reply, deleteCalls, written := NotOwner, [], None;
    }
  }
}
