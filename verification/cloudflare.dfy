/** The DNS provider client: its decisions, with every HTTP exchange replaced
    by the reply it produced. A reply is either the decoded JSON body (the
    `success` flag, the `result` list and the rendered `errors`) or the text
    of the exception that reading it raised. Both operations catch every
    exception and turn it into a failure value, so neither ever raises. */
module Cloudflare {
  import opened Base

  /** An element of a `result` list; only its `id` is read. */
  datatype Item = Item(id: string)

  datatype Reply =
    | Body(success: bool, result: seq<Item>, errors: string)
    | Raised(detail: string)

  /** A value in the JSON body of the create request. */
  datatype Field = TextField(s: string) | BoolField(b: bool)

  /** The HTTP requests the client issues, in the order it issues them. */
  datatype Request =
    | ListZones(name: string)
    | CreateRecord(zoneId: string, payload: map<string, Field>)
    | ListRecords(zoneId: string, name: string)
    | DeleteRecord(zoneId: string, recordId: string)

  /** The `(success, message)` pair `create_subdomain` returns. */
  datatype Outcome = Outcome(success: bool, message: string)

  /** The three replies one `delete_subdomain` call may read. */
  datatype Exchange = Exchange(zones: Reply, records: Reply, deletion: Reply)

  const ERROR_PREFIX := "An error occurred: "
  const INDEX_ERROR := "list index out of range"

  /** A reply that reports success and carries at least one result. */
  predicate Usable(r: Reply)
  {
    r.Body? && r.success && |r.result| > 0
  }

  /** The text of the ValueError raised by unpacking `n` pieces into two names,
      in the wording of CPython 3.13 and earlier (later versions also give the
      count when there are too many). */
  function UnpackError(n: nat): (message: string)
    requires n != 2
    ensures n < 2 ==> message == "not enough values to unpack (expected 2, got " + Decimal(n) + ")"
    ensures n > 2 ==> message == "too many values to unpack (expected 2)"
  {
    if n < 2 then "not enough values to unpack (expected 2, got " + Decimal(n) + ")"
    else "too many values to unpack (expected 2)"
  }

  /** The zone a record name belongs to: its last two dot-separated labels
      (fewer if the name has fewer), so it holds at most one dot. */
  function ZoneName(domain: string): (zone: string)
    ensures Split(zone, '.') == LastTwo(Split(domain, '.'))
    ensures Count(zone, '.') <= 1
  {
    var all := Split(domain, '.');
    var labels := LastTwo(all);
    assert forall i :: 0 <= i < |labels| ==> labels[i] == all[|all| - |labels| + i];
    SplitJoin(labels, '.');
    Join(labels, '.')
  }

  /** When `create_subdomain` reports success. */
  predicate CreateSucceeds(recordContent: string, zones: Reply, created: Reply)
  {
    Usable(zones) && |Split(recordContent, ',')| == 2 && created.Body? && created.success
  }

  /** When `delete_subdomain` returns true. */
  predicate DeleteSucceeds(ex: Exchange)
  {
    Usable(ex.zones) && Usable(ex.records) && ex.deletion.Body? && ex.deletion.success
  }

  /** What the create request's JSON body holds: type, name, content and
      proxied from the arguments, then every additional feature written over
      it, so that a feature with the name of a base key replaces that key. */
  predicate IsPayload(p: map<string, Field>, recordType: string, name: string, content: string,
                      proxied: bool, features: map<string, string>)
  {
    && p.Keys == {"type", "name", "content", "proxied"} + features.Keys
    && (forall f :: f in features ==> p[f] == TextField(features[f]))
    && ("type" !in features ==> p["type"] == TextField(recordType))
    && ("name" !in features ==> p["name"] == TextField(name))
    && ("content" !in features ==> p["content"] == TextField(content))
    && ("proxied" !in features ==> p["proxied"] == BoolField(proxied))
  }

  /** cloudflare.py:37-46: the base dictionary, then one assignment per feature. */
  method BuildPayload(recordType: string, name: string, content: string, proxied: bool,
                      features: map<string, string>)
    returns (p: map<string, Field>)
    ensures IsPayload(p, recordType, name, content, proxied, features)
  {
    var base := map["type" := TextField(recordType), "name" := TextField(name),
                    "content" := TextField(content), "proxied" := BoolField(proxied)];
    p := base;
    var todo := features.Keys;
    while todo != {}
      invariant todo <= features.Keys
      invariant p.Keys == base.Keys + (features.Keys - todo)
      invariant forall f :: f in features && f !in todo ==> p[f] == TextField(features[f])
      invariant forall b :: b in base && (b !in features || b in todo) ==> p[b] == base[b]
      decreases todo
    {
      var f :| f in todo;
      p := p[f := TextField(features[f])];
      todo := todo - {f};
    }
  }

  /** `create_subdomain`: look up the zone of `domain`, split `recordContent`
      into name and content at its comma, post the record, and report the
      outcome as a value. */
  method CreateSubdomain(domain: string, recordType: string, recordContent: string, proxied: bool,
                         features: map<string, string>, zones: Reply, created: Reply)
    returns (outcome: Outcome, requests: seq<Request>)
    ensures outcome.success <==> CreateSucceeds(recordContent, zones, created)
    // the zone lookup always comes first; a create request follows only when
    // the lookup gave a zone and the content unpacked into two parts
    ensures 1 <= |requests| <= 2 && requests[0] == ListZones(domain)
    ensures |requests| == 2 <==> Usable(zones) && |Split(recordContent, ',')| == 2
    ensures |requests| == 2 ==>
              var parts := Split(recordContent, ',');
              requests[1].CreateRecord? && requests[1].zoneId == zones.result[0].id &&
              IsPayload(requests[1].payload, recordType, parts[0], parts[1], proxied, features)
    // each way of failing, with its message
    ensures zones.Raised? ==> outcome == Outcome(false, ERROR_PREFIX + zones.detail)
    ensures zones.Body? && !zones.success ==>
              outcome == Outcome(false, "Failed to get zone ID for domain " + domain)
    ensures zones.Body? && zones.success && zones.result == [] ==>
              outcome == Outcome(false, ERROR_PREFIX + INDEX_ERROR)
    ensures Usable(zones) && |Split(recordContent, ',')| != 2 ==>
              outcome == Outcome(false, ERROR_PREFIX + UnpackError(|Split(recordContent, ',')|))
    ensures |requests| == 2 && created.Raised? ==>
              outcome == Outcome(false, ERROR_PREFIX + created.detail)
    ensures |requests| == 2 && created.Body? && !created.success ==>
              outcome == Outcome(false, "Failed to create DNS record: " + created.errors)
    ensures outcome.success ==>
              outcome.message == "Successfully created DNS record for " + Split(recordContent, ',')[0]
  {
    requests := [ListZones(domain)];
    if zones.Raised? {
      return Outcome(false, ERROR_PREFIX + zones.detail), requests;
    }
    if !zones.success {
      return Outcome(false, "Failed to get zone ID for domain " + domain), requests;
    }
    if zones.result == [] {
      return Outcome(false, ERROR_PREFIX + INDEX_ERROR), requests;
    }
    var zoneId := zones.result[0].id;

    var parts := Split(recordContent, ',');
    if |parts| != 2 {
      return Outcome(false, ERROR_PREFIX + UnpackError(|parts|)), requests;
    }
    var subdomain, content := parts[0], parts[1];
    var payload := BuildPayload(recordType, subdomain, content, proxied, features);

    requests := requests + [CreateRecord(zoneId, payload)];
    if created.Raised? {
      return Outcome(false, ERROR_PREFIX + created.detail), requests;
    }
    if !created.success {
      return Outcome(false, "Failed to create DNS record: " + created.errors), requests;
    }
    outcome := Outcome(true, "Successfully created DNS record for " + subdomain);
  }

  /** `delete_subdomain`: find the zone from the name's last two labels, take
      the first zone and the first record the provider lists under that name,
      and delete that record. Any failure is `false`. */
  method DeleteSubdomain(domain: string, ex: Exchange) returns (ok: bool, requests: seq<Request>)
    ensures ok <==> DeleteSucceeds(ex)
    ensures 1 <= |requests| <= 3 && requests[0] == ListZones(ZoneName(domain))
    ensures |requests| >= 2 <==> Usable(ex.zones)
    ensures |requests| == 3 <==> Usable(ex.zones) && Usable(ex.records)
    ensures |requests| >= 2 ==> requests[1] == ListRecords(ex.zones.result[0].id, domain)
    ensures |requests| == 3 ==> requests[2] == DeleteRecord(ex.zones.result[0].id, ex.records.result[0].id)
  {
    var zoneName := ZoneName(domain);
    requests := [ListZones(zoneName)];
    if !Usable(ex.zones) {
      return false, requests;
    }
    var zoneId := ex.zones.result[0].id;

    requests := requests + [ListRecords(zoneId, domain)];
    if !Usable(ex.records) {
      return false, requests;
    }
    var recordId := ex.records.result[0].id;

    requests := requests + [DeleteRecord(zoneId, recordId)];
    ok := ex.deletion.Body? && ex.deletion.success;
  }

  /** A name of at most two labels is its own zone. */
  lemma ZoneNameOfShortName(domain: string)
    requires Count(domain, '.') <= 1
    ensures ZoneName(domain) == domain
  {
    JoinSplit(domain, '.');
  }

  /** A record created as `<child>.<parent>` under a two-child parent is
      deleted through the parent's own zone, whatever dots the child holds. */
  lemma ZoneNameOfChild(child: string, parent: string)
    requires Count(parent, '.') == 1
    ensures ZoneName(child + "." + parent) == parent
  {
    assert child + "." + parent == child + ['.'] + parent;
    SplitAround(child, parent, '.');
    var whole := Split(child, '.') + Split(parent, '.');
    assert LastTwo(whole) == Split(parent, '.');
    JoinSplit(parent, '.');
  }

  /** Under a parent of three or more labels, deletion looks in a different zone. */
  lemma ZoneNameMissesDeepParent(child: string, parent: string)
    requires Count(parent, '.') >= 2
    ensures ZoneName(child + "." + parent) != parent
  {
  }
}
