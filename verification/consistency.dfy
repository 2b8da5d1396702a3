/** How the separately written pieces of the bot fit together, and where
    they do not: the two admin checks, the two default documents, the name a
    registration records versus the zone a removal looks in, and a complete
    registration through the session's handlers. */
module Consistency {
  import opened Base
  import opened LedgerStore
  import opened Cloudflare
  import Bot
  import Commands
  import opened SubdomainCreation

  /** bot.py accepts an admin listed as a number and commands.py one listed
      as a string; neither accepts the other's form. */
  lemma AdminChecksDisagree(id: nat)
    ensures var numeric := Ledger([IntIdent(id)], [], None);
            Bot.IsAdmin(numeric, id) && !Commands.IsAdmin(numeric, id)
    ensures var textual := Ledger([StrIdent(Decimal(id))], [], None);
            !Bot.IsAdmin(textual, id) && Commands.IsAdmin(textual, id)
  {
  }

  /** Only the commands.py default carries a ban list, so a document first
      saved by a registration has none, and a later `/ban` from commands.py
      stops at the missing key. */
  lemma FirstRegistrationHasNoBanList(userId: nat, name: string)
    ensures var saved := AddSubdomain(SubdomainCreation.Load(None), Decimal(userId), name);
            saved.banned.None? && Commands.Load(Some(saved)).banned.None?
    ensures Bot.Load(None) == SubdomainCreation.Load(None)
    ensures Commands.Load(None).banned == Some([])
  {
  }

  /** A record registered under a two-label parent domain, with a form free of
      commas, is looked up for removal in that same parent's zone. */
  lemma RegisteredNameLivesInParentZone(name: string, domain: string, content: string)
    requires ',' !in name && ',' !in domain && ',' !in content
    requires Count(domain, '.') == 1
    ensures ZoneName(Split(name + "." + domain + "," + content, ',')[0]) == domain
  {
    RecordContentSplits(name, domain, content);
    ZoneNameOfChild(name, domain);
  }

  /** `/remove` right after a registration of a name the user did not yet own
      gives the user's list back as it was. */
  lemma RemoveUndoesRegistration(data: Ledger, k: string, name: string)
    requires name !in NamesOf(data.users, k)
    ensures var added := AddSubdomain(data, k, name);
            name in NamesOf(added.users, k)
            && RemoveFirst(NamesOf(added.users, k), name) == NamesOf(data.users, k)
  {
    RemoveFirstOfAppended(NamesOf(data.users, k), name);
  }

  /** A session with the shipped configuration, driven through the
      runtime's dispatch up to the confirm step: pick the first domain and an
      A record, submit a name and a content in the form, choose proxied. The
      confirmation inputs are only read by a later confirm. */
  method SessionUpToConfirm(name: string, content: string, inputs: ConfirmInputs)
    returns (view: SubdomainCreationView)
    ensures fresh(view) && view.Valid() && view.Attached(CONFIRM) && !view.finished
    ensures view.config == SHIPPED
    ensures view.domain == Some(SHIPPED.domains[0]) && view.recordType == Some("A") && view.proxyStatus == Some(true)
    ensures view.recordContent == Some(name + "." + SHIPPED.domains[0] + "," + content)
    ensures view.additionalFeatures == map[]
  {
    view := new SubdomainCreationView(SHIPPED);
    assert view.widgets[0] in view.widgets;
    var delivered, modal, outcome, written := view.Dispatch(DOMAIN_SELECT, [SHIPPED.domains[0]], inputs);
    assert delivered;
    assert view.widgets[0] in view.widgets;
    delivered, modal, outcome, written := view.Dispatch(RECORD_TYPE_SELECT, ["A"], inputs);
    assert delivered;
    ShippedTypesHaveNoFeatureFields("A");
    assert modal.fieldIds == [NAME_FIELD, CONTENT_FIELD];
    modal.OnSubmit([name, content]);
    assert view.widgets[0] in view.widgets;
    delivered, modal, outcome, written := view.Dispatch(PROXY_STATUS_SELECT, ["True"], inputs);
    assert delivered;
    assert view.widgets[0] in view.widgets;
  }

  /** Choosing a record type without an entry in the feature table opens a
      form of just name and content, and submitting it leaves the stored
      extra fields as they were. */
  method UnlistedTypeKeepsFeatures(view: SubdomainCreationView, t: string, name: string, content: string,
                                   inputs: ConfirmInputs)
    requires view.Valid() && !view.finished && view.Attached(RECORD_TYPE_SELECT)
    requires t !in view.config.recordFeatures
    modifies view
    ensures view.Valid() && view.recordType == Some(t)
    ensures view.additionalFeatures == old(view.additionalFeatures)
  {
    var delivered, modal, outcome, written := view.Dispatch(RECORD_TYPE_SELECT, [t], inputs);
    assert delivered && modal.fieldIds == [NAME_FIELD, CONTENT_FIELD];
    modal.OnSubmit([name, content]);
  }

  /** The whole session, then a click on confirm: the user's list gains
      `<name>.lykcloud.com` (the first shipped domain) exactly when the
      provider accepts the request and neither input holds a comma. */
  method RegisterThroughSession(userId: nat, file: Option<Ledger>, name: string, content: string,
                                zones: Cloudflare.Reply, created: Cloudflare.Reply)
    returns (written: Option<Ledger>)
    ensures ',' !in name && ',' !in content ==>
              (written.Some? <==> Usable(zones) && created.Body? && created.success)
    ensures written.Some? ==>
              && ',' !in name && ',' !in content
              && written.value == AddSubdomain(SubdomainCreation.Load(file), Decimal(userId), name + "." + SHIPPED.domains[0])
  {
    var inputs := ConfirmInputs(userId, file, zones, created);
    var view := SessionUpToConfirm(name, content, inputs);
    var delivered, _, _, w := view.Dispatch(CONFIRM, [], inputs);
    assert delivered;
    written := w;
    assert ',' !in SHIPPED.domains[0];
    if ',' !in name && ',' !in content {
      RecordContentSplits(name, SHIPPED.domains[0], content);
    } else {
      CommaInFormBlocksCreation(name, SHIPPED.domains[0], content);
    }
  }
}
