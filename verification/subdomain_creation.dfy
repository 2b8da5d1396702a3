/** The interactive registration session of views/subdomain_creation.py: a
    message whose components walk the user through domain, record type,
    record content (in a modal form), proxy status and confirmation.
    `widgets` stands for the components an interaction can still come from.
    Python empties it in two ways: `on_timeout` clears the view's children
    without touching the message, while `cancel` and `finalize_subdomain`
    detach the view from the message and keep its children. Either way no
    interaction reaches the view afterwards (after a timeout `finished` also
    says so), which is all the model keeps. */
module SubdomainCreation {
  import opened Base
  import opened LedgerStore
  import opened Cloudflare

  const DOMAIN_SELECT := "domain_select"
  const RECORD_TYPE_SELECT := "record_type_select"
  const PROXY_STATUS_SELECT := "proxy_status_select"
  const CONFIRM := "confirm"
  const CANCEL := "cancel"
  const NAME_FIELD := "name"
  const CONTENT_FIELD := "content"
  /** The option values of the proxy-status select. */
  const PROXY_OPTIONS := ["True", "False"]

  datatype Widget = Select(customId: string, options: seq<string>) | Button(customId: string)

  /** The contents of config.py: the offered parent domains, the offered
      record types, and the extra form fields per record type. */
  datatype Config = Config(domains: seq<string>, recordTypes: seq<string>,
                           recordFeatures: map<string, seq<string>>)

  /** config.py as shipped. */
  const SHIPPED := Config(["lykcloud.com", "example.org", "example.net"],
                          ["A", "AAAA", "CNAME", "TXT"],
                          map["SRV" := ["priority", "weight", "port", "target"]])

  /** What a confirmation needs from outside the session: the clicking user's
      id, data.json as stored, and the provider's replies to the zone lookup
      and to the create request. */
  datatype ConfirmInputs = ConfirmInputs(userId: nat, file: Option<Ledger>, zones: Cloudflare.Reply,
                                         created: Cloudflare.Reply)

  function Load(file: Option<Ledger>): Ledger
  {
    LoadData(file, EMPTY_WITHOUT_BANS)
  }

  /** `f` is an extra field of some record type. */
  ghost predicate IsFeatureName(config: Config, f: string)
  {
    exists t :: t in config.recordFeatures && f in config.recordFeatures[t]
  }

  /** The extra form fields for a record type: none unless the type is a key
      of the feature table. */
  function FeatureFields(config: Config, recordType: Option<string>): (fs: seq<string>)
    ensures forall i :: 0 <= i < |fs| ==> IsFeatureName(config, fs[i])
    ensures recordType.None? || recordType.value !in config.recordFeatures ==> fs == []
  {
    if recordType.Some? && recordType.value in config.recordFeatures then
      var fs := config.recordFeatures[recordType.value];
      assert forall i :: 0 <= i < |fs| ==> fs[i] in config.recordFeatures[recordType.value];
      fs
    else []
  }

  /** With the shipped configuration no selectable record type has extra
      fields: the only feature entry is for "SRV", which is not offered. */
  lemma ShippedTypesHaveNoFeatureFields(t: string)
    requires t in SHIPPED.recordTypes
    ensures FeatureFields(SHIPPED, Some(t)) == []
  {
    assert t == "A" || t == "AAAA" || t == "CNAME" || t == "TXT";
  }

  /** `m[ids[0]] = vals[0]; …; m[ids[n-1]] = vals[n-1]`, in order: the
      stored keys gain exactly the fields' ids. */
  function WithFields(m: map<string, string>, ids: seq<string>, vals: seq<string>): (r: map<string, string>)
    requires |ids| == |vals|
    ensures r.Keys == m.Keys + (set f | f in ids)
    decreases |ids|
  {
    if |ids| == 0 then m
    else
      var n := |ids| - 1;
      assert ids == ids[..n] + [ids[n]];
      WithFields(m, ids[..n], vals[..n])[ids[n] := vals[n]]
  }

  /** A field keeps the value of its last occurrence. */
  lemma {:induction false} WithFieldsLast(m: map<string, string>, ids: seq<string>, vals: seq<string>, i: nat)
    requires |ids| == |vals| && i < |ids|
    requires forall j :: i < j < |ids| ==> ids[j] != ids[i]
    ensures ids[i] in WithFields(m, ids, vals) && WithFields(m, ids, vals)[ids[i]] == vals[i]
    decreases |ids|
  {
    var n := |ids| - 1;
    var prev := WithFields(m, ids[..n], vals[..n]);
    assert WithFields(m, ids, vals) == prev[ids[n] := vals[n]];
    if i < n {
      assert ids[n] != ids[i];
      WithFieldsLast(m, ids[..n], vals[..n], i);
      assert ids[..n][i] == ids[i] && vals[..n][i] == vals[i];
    }
  }

  /** A key the fields do not name keeps its earlier value. */
  lemma {:induction false} WithFieldsKeeps(m: map<string, string>, ids: seq<string>, vals: seq<string>, k: string)
    requires |ids| == |vals| && k in m && k !in ids
    ensures k in WithFields(m, ids, vals) && WithFields(m, ids, vals)[k] == m[k]
    decreases |ids|
  {
    if |ids| > 0 {
      var n := |ids| - 1;
      assert ids == ids[..n] + [ids[n]];
      WithFieldsKeeps(m, ids[..n], vals[..n], k);
    }
  }

  /** Storing extra fields keeps every stored key an extra field name. */
  lemma WithFeatureNames(config: Config, m: map<string, string>, ids: seq<string>, vals: seq<string>)
    requires |ids| == |vals|
    requires forall f :: f in m ==> IsFeatureName(config, f)
    requires forall i :: 0 <= i < |ids| ==> IsFeatureName(config, ids[i])
    ensures forall f :: f in WithFields(m, ids, vals) ==> IsFeatureName(config, f)
  {
    forall f | f in WithFields(m, ids, vals) ensures IsFeatureName(config, f) {
      if f !in m {
        var j :| 0 <= j < |ids| && ids[j] == f;
      }
    }
  }

  class SubdomainCreationView {
    const config: Config
    var domain: Option<string>
    var recordType: Option<string>
    var recordContent: Option<string>
    var proxyStatus: Option<bool>
    var additionalFeatures: map<string, string>
    var widgets: seq<Widget>
    /** The view timed out and no longer receives interactions. */
    var finished: bool

    predicate Attached(id: string)
      reads this
    {
      exists w :: w in widgets && w.customId == id
    }

    /** Each component is only offered once the fields it builds on are set. */
    ghost predicate Valid()
      reads this
    {
      && (recordType.Some? ==> domain.Some?)
      && (Attached(RECORD_TYPE_SELECT) ==> domain.Some?)
      && (Attached(PROXY_STATUS_SELECT) ==> recordType.Some? && recordContent.Some?)
      && (Attached(CONFIRM) ==> recordType.Some? && recordContent.Some? && proxyStatus.Some?)
      && (forall f :: f in additionalFeatures ==> IsFeatureName(config, f))
    }

    constructor (config: Config)
      ensures this.config == config && Valid()
      ensures domain == None && recordType == None && recordContent == None && proxyStatus == None
      ensures additionalFeatures == map[] && !finished
      ensures widgets == [Select(DOMAIN_SELECT, config.domains)]
    {
      this.config := config;
      domain, recordType, recordContent, proxyStatus := None, None, None, None;
      additionalFeatures := map[];
      widgets := [Select(DOMAIN_SELECT, config.domains)];
      finished := false;
    }

    /** What `interaction_check` does for each component id: the handler's
        effect, with every field that handler does not set left as it was.
        A select interaction without values fails before any change. */
    twostate predicate Routed(customId: string, values: seq<string>, inputs: ConfirmInputs,
                              new modal: RecordContentModal?, new outcome: Option<Outcome>,
                              new written: Option<Ledger>)
      reads this
    {
      && (customId != RECORD_TYPE_SELECT ==> modal == null)
      && (customId != CONFIRM ==> outcome == None && written == None)
      && finished == old(finished)
      && (customId == DOMAIN_SELECT ==>
            && recordType == old(recordType) && recordContent == old(recordContent)
            && proxyStatus == old(proxyStatus) && additionalFeatures == old(additionalFeatures)
            && (|values| == 0 ==> domain == old(domain) && widgets == old(widgets))
            && (|values| > 0 ==>
                  domain == Some(values[0]) && widgets == [Select(RECORD_TYPE_SELECT, config.recordTypes)]))
      && (customId == RECORD_TYPE_SELECT ==>
            && domain == old(domain) && recordContent == old(recordContent)
            && proxyStatus == old(proxyStatus) && additionalFeatures == old(additionalFeatures)
            && widgets == old(widgets)
            && (|values| == 0 ==> recordType == old(recordType) && modal == null)
            && (|values| > 0 ==>
                  && recordType == Some(values[0])
                  && modal != null && fresh(modal) && modal.view == this && modal.Valid()
                  && modal.fieldIds == [NAME_FIELD, CONTENT_FIELD] + FeatureFields(config, Some(values[0]))))
      && (customId == PROXY_STATUS_SELECT ==>
            && domain == old(domain) && recordType == old(recordType)
            && recordContent == old(recordContent) && additionalFeatures == old(additionalFeatures)
            && (|values| == 0 ==> proxyStatus == old(proxyStatus) && widgets == old(widgets))
            && (|values| > 0 ==>
                  proxyStatus == Some(values[0] == "True") && widgets == [Button(CONFIRM), Button(CANCEL)]))
      && (customId == CONFIRM ==>
            && domain == old(domain) && recordType == old(recordType) && recordContent == old(recordContent)
            && proxyStatus == old(proxyStatus) && additionalFeatures == old(additionalFeatures)
            && widgets == [] && recordContent.Some? && outcome.Some?
            && (outcome.value.success <==> CreateSucceeds(recordContent.value, inputs.zones, inputs.created))
            && (written.Some? <==> outcome.value.success)
            && (written.Some? ==>
                  written.value == AddSubdomain(Load(inputs.file), Decimal(inputs.userId),
                                                Split(recordContent.value, ',')[0])))
      && (customId == CANCEL ==>
            && domain == old(domain) && recordType == old(recordType) && recordContent == old(recordContent)
            && proxyStatus == old(proxyStatus) && additionalFeatures == old(additionalFeatures)
            && widgets == [])
      && (customId !in [DOMAIN_SELECT, RECORD_TYPE_SELECT, PROXY_STATUS_SELECT, CONFIRM, CANCEL] ==>
            && domain == old(domain) && recordType == old(recordType) && recordContent == old(recordContent)
            && proxyStatus == old(proxyStatus) && additionalFeatures == old(additionalFeatures)
            && widgets == old(widgets))
    }

    /** The runtime's side: an interaction reaches the view only while it has
        not timed out and only for a component it currently shows; a delivered
        one is routed by `interaction_check`. */
    method Dispatch(customId: string, values: seq<string>, inputs: ConfirmInputs)
      returns (delivered: bool, modal: RecordContentModal?, outcome: Option<Outcome>, written: Option<Ledger>)
      requires Valid()
      modifies this
      ensures Valid()
      ensures delivered <==> !old(finished) && old(Attached(customId))
      ensures delivered ==> Routed(customId, values, inputs, modal, outcome, written)
      ensures !delivered ==> unchanged(this) && modal == null && outcome == None && written == None
    {
      delivered := !finished && Attached(customId);
      if !delivered {
        return false, null, None, None;
      }
      modal, outcome, written := InteractionCheck(customId, values, inputs);
    }

    /** `interaction_check`: routes an interaction by its component id. */
    method InteractionCheck(customId: string, values: seq<string>, inputs: ConfirmInputs)
      returns (modal: RecordContentModal?, outcome: Option<Outcome>, written: Option<Ledger>)
      requires Valid() && Attached(customId)
      modifies this
      ensures Valid()
      ensures Routed(customId, values, inputs, modal, outcome, written)
    {
      modal, outcome, written := null, None, None;
      if customId == DOMAIN_SELECT {
        SelectDomain(values);
      } else if customId == RECORD_TYPE_SELECT {
        modal := SelectRecordType(values);
      } else if customId == PROXY_STATUS_SELECT {
        SelectProxyStatus(values);
      } else if customId == CONFIRM {
        var o, _, w := FinalizeSubdomain(inputs);
        outcome, written := Some(o), w;
      } else if customId == CANCEL {
        Cancel();
      }
    }

    /** `on_timeout`: the components are cleared and the view stops listening. */
    method OnTimeout()
      requires Valid()
      modifies this`widgets, this`finished
      ensures Valid() && widgets == [] && finished
    {
      widgets := [];
      finished := true;
    }

    /** `select_domain`: records the chosen parent domain and offers the record
        types instead. An interaction without values fails before any change. */
    method SelectDomain(values: seq<string>)
      requires Valid() && Attached(DOMAIN_SELECT)
      modifies this`domain, this`widgets
      ensures Valid()
      ensures |values| == 0 ==> unchanged(this)
      ensures |values| > 0 ==>
                domain == Some(values[0]) && widgets == [Select(RECORD_TYPE_SELECT, config.recordTypes)]
    {
      if |values| == 0 {
        return;
      }
      domain := Some(values[0]);
      widgets := [Select(RECORD_TYPE_SELECT, config.recordTypes)];
      assert Attached(RECORD_TYPE_SELECT) by {
        assert widgets[0] in widgets;
      }
    }

    /** `select_record_type`: records the type and opens the content form for
        it; the components stay as they are. */
    method SelectRecordType(values: seq<string>) returns (modal: RecordContentModal?)
      requires Valid() && Attached(RECORD_TYPE_SELECT)
      modifies this`recordType
      ensures Valid()
      ensures |values| == 0 ==> unchanged(this) && modal == null
      ensures |values| > 0 ==>
                && recordType == Some(values[0])
                && modal != null && fresh(modal) && modal.view == this && modal.Valid()
                && modal.fieldIds == [NAME_FIELD, CONTENT_FIELD] + FeatureFields(config, Some(values[0]))
    {
      if |values| == 0 {
        return null;
      }
      recordType := Some(values[0]);
      modal := new RecordContentModal(this);
    }

    /** `select_proxy_status`: "True" means proxied, any other value not. */
    method SelectProxyStatus(values: seq<string>)
      requires Valid() && Attached(PROXY_STATUS_SELECT)
      modifies this`proxyStatus, this`widgets
      ensures Valid()
      ensures |values| == 0 ==> unchanged(this)
      ensures |values| > 0 ==>
                proxyStatus == Some(values[0] == "True") && widgets == [Button(CONFIRM), Button(CANCEL)]
    {
      if |values| == 0 {
        return;
      }
      proxyStatus := Some(values[0] == "True");
      UpdateView();
    }

    /** `cancel`: the message loses its components; nothing is written. */
    method Cancel()
      requires Valid()
      modifies this`widgets
      ensures Valid() && widgets == []
    {
      widgets := [];
    }

    /** `update_view`: replaces the components with the confirm and cancel buttons. */
    method UpdateView()
      requires Valid() && recordType.Some? && recordContent.Some? && proxyStatus.Some?
      modifies this`widgets
      ensures Valid() && widgets == [Button(CONFIRM), Button(CANCEL)]
    {
      widgets := [Button(CONFIRM), Button(CANCEL)];
    }

    /** `finalize_subdomain` (reached through `confirm`): asks the DNS client
        to create the record and, only if it reports success, appends the
        record's name (the part of the content before the comma) to the
        clicking user's list. Either way the message loses its components. */
    method FinalizeSubdomain(inputs: ConfirmInputs) returns (outcome: Outcome, requests: seq<Request>, written: Option<Ledger>)
      requires Valid() && Attached(CONFIRM)
      modifies this`widgets
      ensures Valid() && widgets == []
      ensures outcome.success <==> CreateSucceeds(recordContent.value, inputs.zones, inputs.created)
      ensures written.Some? <==> outcome.success
      ensures written.Some? ==>
                written.value == AddSubdomain(Load(inputs.file), Decimal(inputs.userId), Split(recordContent.value, ',')[0])
      // the session's choices are what the DNS client is asked for
      ensures 1 <= |requests| && requests[0] == ListZones(domain.value)
      ensures |requests| == 2 ==>
                var parts := Split(recordContent.value, ',');
                |parts| == 2 && requests[1].CreateRecord? &&
                IsPayload(requests[1].payload, recordType.value, parts[0], parts[1], proxyStatus.value, additionalFeatures)
    {
      outcome, requests := CreateSubdomain(domain.value, recordType.value, recordContent.value, proxyStatus.value,
                                           additionalFeatures, inputs.zones, inputs.created);
      written := None;
      if outcome.success {
        var data := Load(inputs.file);
        var userId := Decimal(inputs.userId);
        var subdomain := Split(recordContent.value, ',')[0];
        data := AddSubdomain(data, userId, subdomain);
        written := Some(data);
      }
      widgets := [];
    }
  }

  /** The form asking for the record's name, its content and any extra
      fields of the chosen record type. */
  class RecordContentModal {
    const view: SubdomainCreationView
    /** The custom ids of the form's text inputs, in order. */
    const fieldIds: seq<string>

    ghost predicate Valid()
    {
      && |fieldIds| >= 2 && fieldIds[0] == NAME_FIELD && fieldIds[1] == CONTENT_FIELD
      && forall i :: 2 <= i < |fieldIds| ==> IsFeatureName(view.config, fieldIds[i])
    }

    constructor (view: SubdomainCreationView)
      ensures this.view == view
      ensures fieldIds == [NAME_FIELD, CONTENT_FIELD] + FeatureFields(view.config, view.recordType)
      ensures Valid()
    {
      var features := FeatureFields(view.config, view.recordType);
      var ids := [NAME_FIELD, CONTENT_FIELD];
      for i := 0 to |features|
        invariant ids == [NAME_FIELD, CONTENT_FIELD] + features[..i]
      {
        ids := ids + [features[i]];
      }
      this.view := view;
      fieldIds := ids;
    }

    /** `on_submit`: packs name, parent domain and content into the session's
        record content as `<name>.<domain>,<content>`, stores every extra
        field (over what earlier submissions stored), and offers the proxy
        choice. */
    method OnSubmit(values: seq<string>)
      requires Valid() && view.Valid() && view.recordType.Some? && |values| == |fieldIds|
      modifies view
      ensures view.Valid()
      ensures view.domain == old(view.domain) && view.recordType == old(view.recordType)
      ensures view.proxyStatus == old(view.proxyStatus) && view.finished == old(view.finished)
      ensures view.recordContent == Some(values[0] + "." + view.domain.value + "," + values[1])
      ensures view.additionalFeatures == WithFields(old(view.additionalFeatures), fieldIds[2..], values[2..])
      // a form without extra fields leaves the stored ones as they were
      ensures |fieldIds| == 2 ==> view.additionalFeatures == old(view.additionalFeatures)
      ensures view.widgets == [Select(PROXY_STATUS_SELECT, PROXY_OPTIONS)]
    {
      var domain := view.domain.value;
      var features := view.additionalFeatures;
      for i := 2 to |fieldIds|
        invariant features == WithFields(view.additionalFeatures, fieldIds[2..i], values[2..i])
      {
        assert fieldIds[2..i + 1][..i - 2] == fieldIds[2..i];
        assert values[2..i + 1][..i - 2] == values[2..i];
        features := features[fieldIds[i] := values[i]];
      }
      assert fieldIds[2..|fieldIds|] == fieldIds[2..] && values[2..|values|] == values[2..];
      WithFeatureNames(view.config, view.additionalFeatures, fieldIds[2..], values[2..]);
      view.recordContent := Some(values[0] + "." + domain + "," + values[1]);
      view.additionalFeatures := features;
      view.widgets := [Select(PROXY_STATUS_SELECT, PROXY_OPTIONS)];
    }
  }

  /** The record content the form packs, `<name>.<domain>,<content>`, unpacks
      into the full record name and the content when none of the three pieces
      holds a comma. */
  lemma RecordContentSplits(name: string, domain: string, content: string)
    requires ',' !in name && ',' !in domain && ',' !in content
    ensures Split(name + "." + domain + "," + content, ',') == [name + "." + domain, content]
  {
    var full := name + "." + domain;
    assert ',' !in full;
    SplitPair(full, content, ',');
    assert full + "," + content == full + [','] + content;
  }

  /** A comma in any of the three pieces makes the packed content split into
      more than two parts, so the DNS client refuses it. */
  lemma CommaInFormBlocksCreation(name: string, domain: string, content: string)
    requires ',' in name || ',' in domain || ',' in content
    ensures |Split(name + "." + domain + "," + content, ',')| > 2
  {
    var full := name + "." + domain;
    assert full + "," + content == full + [','] + content;
    SplitAround(full, content, ',');
    if ',' in content {
      CountPositive(content, ',');
    } else {
      assert ',' in full;
      CountPositive(full, ',');
    }
  }

}
