# SubDomain bot — a Dafny model

SubDomain is a Discord bot that hands out subdomains under a few parent
domains. It creates and deletes the matching DNS records through the
Cloudflare API and keeps an ownership ledger in `data.json`. This project
models the bot's core and proves properties of it:

- **The registration session** (`views/subdomain_creation.py`). This is a
  message whose components walk a user through five steps: pick a parent
  domain, pick a record type, fill in a form (name, content, and the extra
  fields of the record type), choose the proxy status, then confirm or
  cancel. It is modelled as two classes, `SubdomainCreationView` and
  `RecordContentModal`, whose methods update their fields as the Python
  handlers do. The components currently on the message are a field
  (`widgets`); only those can receive an interaction.
- **The ledger commands** (`bot.py`, `commands.py`): `/list`, `/userinfo`,
  `/ban` (both versions), `/whois` and `/remove`. Each takes the stored
  document, or `None` when `data.json` is absent. It returns its reply and
  the document it saves, or `None` when it saves nothing.
- **The DNS client** (`cloudflare.py`): `create_subdomain` and
  `delete_subdomain`. Each HTTP exchange is replaced by the reply it
  produced: either a decoded body or the text of the exception raised while
  reading it. Both operations return the requests they issue, in order, and
  the same result the Python code computes, including every error message.
  The unpacking error uses the wording of CPython 3.13 and earlier; later
  versions also give the count when there are too many values.

Modules:

| file | module | what it holds |
|---|---|---|
| base.dfy | `Base` | `Option`, Python's `str.split`/`str.join` with a one-character separator, `xs[-2:]`, `str(n)` |
| ledger.dfy | `LedgerStore` | the `data.json` document and the dictionary and list operations the commands apply to it |
| cloudflare.dfy | `Cloudflare` | the DNS client |
| bot.dfy | `Bot` | the slash commands of `bot.py` |
| commands.dfy | `Commands` | `/ban` of `commands.py` |
| subdomain_creation.dfy | `SubdomainCreation` | the session view and the form |
| consistency.dfy | `Consistency` | facts that relate the separate files, and a complete registration through the session's dispatch |

The `users` object of `data.json` is modelled as an ordered list of
(key, names) entries, not as a map, because `/whois` returns the first
owner in the dictionary's insertion order. `admins` and `banned_users` hold
JSON scalars (`Ident`): an admin may be listed as a number or as a string,
and the two files compare ids differently.

Behaviour of the code that the model keeps, and that a reader might not
expect:

- The two admin checks disagree. `bot.py:32` looks for the integer id and
  `commands.py:20` looks for its decimal string. No list entry satisfies
  both (`Consistency.AdminChecksDisagree`).
- Only the `commands.py` default document has a `banned_users` key.
  - A document first written by a registration or by `bot.py` has none, so
    `/ban` from `commands.py` fails there with a KeyError and saves nothing
    (`Consistency.FirstRegistrationHasNoBanList`, `Commands.Ban`).
  - `/ban` in `bot.py` deletes the user's records and entry but never
    touches `banned_users`.
  - Nothing refuses a banned user: `commands.py` reads the list only to
    report an id that is already banned.
- The session does not check the chosen domain or record type against the
  configuration. A registration does not check whether the user already
  owns the name, so a list may hold a name twice. `/remove` then drops only
  its first occurrence, and the name stays listed (`LedgerStore.RemoveFirstCounts`).
- With the shipped `config.py`, no selectable record type has extra form
  fields. The only entry of the feature table is for `SRV`, which is not
  offered (`SubdomainCreation.ShippedTypesHaveNoFeatureFields`).
- Extra fields from an earlier form submission in the same session are
  never cleared (`RecordContentModal.OnSubmit`, `WithFieldsKeeps`).
- Deletion looks for the zone named by the record's last two labels. For a
  two-label parent domain, as all shipped ones are, that is the parent
  itself (`Consistency.RegisteredNameLivesInParentZone`). Under a deeper
  parent it is a different name (`Cloudflare.ZoneNameMissesDeepParent`).
- A comma in the form's name or content makes the packed record content
  split into more than two parts. Creation then fails with the unpacking
  error, and nothing is recorded (`SubdomainCreation.CommaInFormBlocksCreation`).

## Model

| member | source | states |
|---|---|---|
| Base.Split | cloudflare.py:36 | `str.split`: there is one more piece than there are separators, and no piece contains the separator |
| Base.JoinSplit | cloudflare.py:74 | joining the pieces of a split with the same separator gives back the original string |
| Base.SplitJoin | cloudflare.py:74 | splitting a join of separator-free pieces gives back the pieces |
| Base.Decimal | bot.py:51 | `str(user.id)` is a non-empty string of decimal digits |
| Base.DecimalValue | bot.py:51 | `int(str(n)) == n`: the decimal string denotes the id |
| Base.DecimalInjective | bot.py:51 | distinct ids have distinct decimal strings, so `users` keys and string ids of different users never collide |
| LedgerStore.LoadData | bot.py:18-22 | an absent `data.json` reads as the caller's default document, a present one as stored |
| LedgerStore.Find | bot.py:53-54 | looking up a user finds nothing exactly when the key is absent from `users` |
| LedgerStore.Put | views/subdomain_creation.py:86-89 | after `users[k] = v`, `k` maps to `v` and every other key maps to what it did before |
| LedgerStore.PutKeys | views/subdomain_creation.py:86-87 | assigning an existing key keeps the key order; a new key is appended last (insertion order) |
| LedgerStore.PutKeepsUniqueKeys | views/subdomain_creation.py:86-87 | assigning a key never creates a second entry for it |
| LedgerStore.Delete | bot.py:85 | after `del users[k]`, `k` is absent and every other key maps to what it did before |
| LedgerStore.DeleteCutsEntry | bot.py:85 | with unique keys, `del users[k]` removes exactly the entry holding `k` and keeps the order of the rest |
| LedgerStore.AddSubdomain | views/subdomain_creation.py:84-90 | the user's list becomes their previous list (empty if they had no entry) with the new name appended; other users, admins and the ban list are unchanged; unique keys are kept |
| LedgerStore.RemoveFirst | bot.py:109-111 | `list.remove` is applied only to a name the list holds (the membership test before it), and the list becomes one shorter |
| LedgerStore.RemoveFirstCounts | bot.py:111 | `list.remove` of a present name takes away exactly one copy (as a multiset), so the name is still listed afterwards exactly when it was listed more than once |
| LedgerStore.RemoveFirstAt | bot.py:111 | the occurrence removed is the first one, and the order of the rest is kept |
| LedgerStore.RemoveFirstOfAppended | bot.py:111 | removing a name just appended to a list without it gives back the list |
| Cloudflare.BuildPayload | cloudflare.py:37-46 | the JSON body holds type, name, content and proxied, plus every additional feature, and a feature overrides a base key of the same name |
| Cloudflare.CreateSubdomain | cloudflare.py:19-58 | success exactly when the zone lookup returned a zone, the content splits into exactly two parts and the provider accepted the record. The zone lookup is always the first request, for the parent domain. The create request goes to the first zone with the assembled body. Each failure returns its own message (lookup refused, empty zone list, unpacking error, provider error, raised exception) |
| Cloudflare.DeleteSubdomain | cloudflare.py:65-101 | true exactly when the zone lookup and the record lookup each returned at least one result and the deletion was accepted. The requests are the zone of the name's last two labels, then the records under the full name in the first zone, then deletion of the first record |
| Cloudflare.UnpackError | cloudflare.py:36 | the message of the ValueError for unpacking fewer than two parts (with the count) and for more than two |
| Cloudflare.ZoneNameOfShortName | cloudflare.py:74 | a name of at most two labels is its own zone |
| Cloudflare.ZoneName | cloudflare.py:74 | the zone name consists of the name's last two labels (fewer if it has fewer), so it holds at most one dot |
| Cloudflare.ZoneNameOfChild | cloudflare.py:74 | for `<child>.<parent>` with a two-label parent, the zone is the parent, whatever dots the child holds |
| Cloudflare.ZoneNameMissesDeepParent | cloudflare.py:74 | under a parent of three or more labels, the zone searched is not the parent |
| Bot.IsAdmin | bot.py:30-32 | a caller is an admin exactly when `admins` lists their id as a JSON number; a list of strings admits nobody |
| Bot.ListSubdomains | bot.py:49-57 | the caller's own list when they have an entry, "no subdomains" exactly when they have none |
| Bot.UserInfoOf | bot.py:59-71 | permission denied exactly when the caller is not an admin. Otherwise the target's list with its length, or "no subdomains" exactly when the target has no entry |
| Bot.BanUser | bot.py:73-89 | non-admins change nothing. For a user with an entry, one delete request is issued per owned name, in list order, and the saved document is the loaded one with the user's entry removed. A user without an entry causes no deletes and no save |
| Bot.Whois | bot.py:91-103 | admin only. Reports the first user, in key order, whose list contains the domain; "not registered" exactly when no list contains it |
| Bot.RemoveSubdomain | bot.py:105-117 | a delete is requested only when the caller's list contains the domain. The document is saved exactly when the caller owns it and the delete succeeded, and then the first occurrence of the domain leaves the caller's list |
| Commands.IsAdmin | commands.py:18-20 | a caller is an admin exactly when `admins` lists their id's decimal string; a list of numbers admits nobody |
| Commands.OneEntryOneAdmin | commands.py:18-20 | a single entry of `admins` admits at most one caller |
| Commands.Ban | commands.py:22-35 | non-admin: nothing saved. Document without `banned_users`: KeyError, nothing saved. Already banned: nothing saved. A save happens exactly in the remaining case, and then the id's decimal string is appended to `banned_users`; users and admins are untouched and the list stays free of duplicates |
| Commands.BanTwice | commands.py:29-35 | banning twice in a row saves at most once: the first call saves exactly for a valid ban, and the second never does after that |
| SubdomainCreation.FeatureFields | views/subdomain_creation.py:119-121 | every extra form field of a record type is a feature name of the configuration, and a type outside the feature table has none |
| SubdomainCreation.ShippedTypesHaveNoFeatureFields | config.py:4-8 | with the shipped configuration, every offered record type has no extra form fields |
| SubdomainCreation.WithFields | views/subdomain_creation.py:127-128 | storing the form's extra fields adds exactly their ids to the stored keys |
| SubdomainCreation.WithFieldsLast | views/subdomain_creation.py:127-128 | a field that occurs again later is overwritten; the stored value is that of the field's last occurrence |
| SubdomainCreation.WithFieldsKeeps | views/subdomain_creation.py:127-128 | a stored key that the form does not name keeps its earlier value, so submitting again never clears stale extra fields |
| SubdomainCreation.WithFeatureNames | views/subdomain_creation.py:127-128 | storing feature fields keeps every stored key a feature name |
| SubdomainCreation.SubdomainCreationView.constructor | views/subdomain_creation.py:10-20 | a new session has nothing chosen, no extra fields, and shows only the domain select, with the configured domains |
| SubdomainCreation.SubdomainCreationView.Dispatch | views/subdomain_creation.py:22-33 | an interaction is handled only while the session has not timed out and only for a component it shows, and then exactly as `interaction_check` routes it (`Routed`). Otherwise nothing changes |
| SubdomainCreation.SubdomainCreationView.InteractionCheck | views/subdomain_creation.py:22-33 | routes by component id (`Routed`). Domain select: stores the first value and offers the record types. Record-type select: stores the type and opens the form. Proxy select: stores "True" as proxied and offers confirm and cancel. Confirm: creates and saves exactly on success, the chosen name going to the clicking user's list. Cancel: removes the components. In each route every other field keeps its value, a select without values changes nothing, and unknown ids change nothing. Every step keeps the session invariant: each component is offered only once the fields it needs are set |
| SubdomainCreation.SubdomainCreationView.OnTimeout | views/subdomain_creation.py:35-37 | the components are cleared and the session stops receiving interactions |
| SubdomainCreation.SubdomainCreationView.SelectDomain | views/subdomain_creation.py:39-46 | records the chosen domain and replaces the components with the record-type select; an interaction without values changes nothing |
| SubdomainCreation.SubdomainCreationView.SelectRecordType | views/subdomain_creation.py:48-50 | records the type and opens a form whose fields are name, content and the type's extra fields; the components stay |
| SubdomainCreation.SubdomainCreationView.SelectProxyStatus | views/subdomain_creation.py:52-54 | proxied exactly when the chosen value is "True"; the components become the confirm and cancel buttons |
| SubdomainCreation.SubdomainCreationView.Cancel | views/subdomain_creation.py:59-61 | the components are removed; nothing is saved |
| SubdomainCreation.SubdomainCreationView.UpdateView | views/subdomain_creation.py:63-76 | the components become exactly the confirm and cancel buttons |
| SubdomainCreation.SubdomainCreationView.FinalizeSubdomain | views/subdomain_creation.py:78-109 | asks the DNS client for the session's domain, type, content, proxy status and extra fields. Saves exactly when creation succeeded, and then appends the content's part before the comma to the clicking user's list. Either way the components are removed |
| SubdomainCreation.RecordContentModal.constructor | views/subdomain_creation.py:112-121 | the form's fields are name, content, then the record type's extra fields in configured order |
| SubdomainCreation.RecordContentModal.OnSubmit | views/subdomain_creation.py:123-144 | the record content becomes `<name>.<domain>,<content>`. The extra fields are written over the earlier ones, in order. The components become the proxy select with values "True" and "False". The session's other choices are unchanged, and a form without extra fields leaves the stored extra fields as they were |
| SubdomainCreation.RecordContentSplits | views/subdomain_creation.py:124 | with no comma in name, domain or content, the packed content splits into the full record name and the content |
| SubdomainCreation.CommaInFormBlocksCreation | views/subdomain_creation.py:124 | a comma in any of the three pieces makes the packed content split into more than two parts |
| Consistency.AdminChecksDisagree | bot.py:30-32 | an admin listed by number passes `bot.py`'s check but not `commands.py`'s, and an admin listed by string the reverse |
| Consistency.FirstRegistrationHasNoBanList | commands.py:7-12 | only the `commands.py` default document has a ban list, so a document first saved by a registration has none |
| Consistency.RegisteredNameLivesInParentZone | views/subdomain_creation.py:88 | the name a registration records under a two-label parent, from a comma-free form, is looked up for deletion in that parent's zone |
| Consistency.RemoveUndoesRegistration | bot.py:109-111 | removing a name right after registering it, when the user did not already own it, gives back the user's previous list |
| Consistency.SessionUpToConfirm | views/subdomain_creation.py:22-76 | through the runtime's dispatch, picking the first shipped domain, an A record, a name, a content and "proxied" leads to a valid session offering confirm, with content `<name>.lykcloud.com,<content>` and no extra fields |
| Consistency.UnlistedTypeKeepsFeatures | views/subdomain_creation.py:118-128 | choosing a record type outside the feature table and submitting its form leaves the stored extra fields unchanged |
| Consistency.RegisterThroughSession | views/subdomain_creation.py:22-90 | a whole session then a dispatched confirm: with a comma-free form, the document is saved exactly when the provider accepts, and it then gains `<name>.lykcloud.com` for the user; with a comma, nothing is saved |

## Left out

- Discord itself is not modelled: embeds and message texts, ephemeral
  flags, mentions, command registration and syncing (`on_ready`,
  `bot.run`), and the direct message sent after a successful registration
  (views/subdomain_creation.py:95-103). Replies are reduced to which
  message is sent.
- The `/create-subdomain` command (bot.py:43-47) only creates a session and
  waits for it; it is the view's constructor.
- `data.json` input and output are not modelled. The stored document is a
  parameter and the saved one a result. Not modelled: malformed JSON, a
  document without `users` or `admins`, write failures, and two commands
  racing on the file, which has no locking.
- A hand-edited `data.json` whose `users` object repeats a key is not
  modelled faithfully: Python keeps the last value and the model reads the
  first. Documents written by the bot never repeat a key.
- HTTP, the API token and logging are not modelled. Each exchange is its
  decoded reply or the text of the exception raised while reading it.
- `Bot.BanUser`: the reply to each delete is drawn from a function of the
  name, so the same name always gets the same reply. The results are
  ignored by the source anyway.
- `Bot.Whois`: the reply carries the owner's key, not the user name that
  `bot.fetch_user` returns. A failing `fetch_user` is not modelled.
- `get_user_subdomains` (cloudflare.py:60-63) is an empty stub and is not
  modelled.
- The `has_permissions(administrator=True)` check on `commands.py`'s `/ban`
  (commands.py:23) is enforced by Discord before the handler runs. It is
  not modelled.
- The session's random identifier (views/subdomain_creation.py:17) is
  never read and is not modelled.
- The 60-second timeout is an event (`OnTimeout`) that may come between
  any two interactions. Wall-clock time is not modelled.
- `SubdomainCreation.SubdomainCreationView.FinalizeSubdomain`: when
  sending the direct message fails after the save, the error path edits
  the message again. The model keeps the save and does not model that
  second edit.
- `config.py` is modelled as a value (`Config`), with its shipped contents
  as `SHIPPED`.
