/**
 * Idempotent request handling (lib/edtech/idempotency.ts): reading the
 * `Idempotency-Key` header, hashing it, tagging audit metadata with the hash,
 * and replaying the stored response of an earlier successful request.
 */
module Idempotency {
  import opened Wrappers
  import opened Text
  import opened Json
  import opened Digests

  // ---------------------------------------------------------------------------
  // The header
  // ---------------------------------------------------------------------------

  const MaxKeyLength: nat := 128

  /** The `VALIDATION_ERROR` raised for a key longer than 128 characters. */
  datatype KeyError = KeyTooLong

  /**
   * `getIdempotencyKeyFromRequest`, given the header's value (None when the
   * request has no `Idempotency-Key` header).
   */
  function GetIdempotencyKeyFromRequest(header: Option<string>): (r: Result<Option<string>, KeyError>)
    ensures header.None? ==> r == Ok(None)
    ensures header.Some? && Trim(header.value) == [] ==> r == Ok(None)
    ensures header.Some? && |Trim(header.value)| > MaxKeyLength ==> r == Err(KeyTooLong)
    ensures r.Ok? && r.value.Some? <==> header.Some? && 0 < |Trim(header.value)| <= MaxKeyLength
    ensures r.Ok? && r.value.Some? ==> r.value.value == Trim(header.value) && Trimmed(r.value.value)
  {
    match header
    case None => Ok(None)
    case Some(raw) =>
      if raw == "" then Ok(None)
      else
        var key := Trim(raw);
        TrimIsTrimmed(raw);
        if key == "" then Ok(None)
        else if |key| > MaxKeyLength then Err(KeyTooLong)
        else Ok(Some(key))
  }

  /** A key of 1 to 128 characters with no surrounding whitespace is read back as sent, however it is padded. */
  lemma PaddedKeyIsReadBack(key: string, w1: string, w2: string)
    requires Trimmed(key) && 0 < |key| <= MaxKeyLength
    requires AllSpace(w1) && AllSpace(w2)
    ensures GetIdempotencyKeyFromRequest(Some(w1 + key + w2)) == Ok(Some(key))
  {
    TrimOfPadded(w1, key, w2);
  }

  /** Reading a key that was read from a header gives the same key again. */
  lemma ReadKeyIsStable(header: Option<string>)
    requires GetIdempotencyKeyFromRequest(header).Ok? && GetIdempotencyKeyFromRequest(header).value.Some?
    ensures
      var key := GetIdempotencyKeyFromRequest(header).value.value;
      GetIdempotencyKeyFromRequest(Some(key)) == Ok(Some(key))
  {
    var key := GetIdempotencyKeyFromRequest(header).value.value;
    TrimOfTrimmed(key);
  }

  /** "  publish-123  " is read as "publish-123". */
  lemma PublishKeyExample()
    ensures GetIdempotencyKeyFromRequest(Some("  publish-123  ")) == Ok(Some("publish-123"))
  {
    assert "  publish-123  " == "  " + "publish-123" + "  ";
    PaddedKeyIsReadBack("publish-123", "  ", "  ");
  }

  /** A key of 129 "x" characters is refused. */
  lemma OverlongKeyExample()
    ensures GetIdempotencyKeyFromRequest(Some(seq(129, _ => 'x'))) == Err(KeyTooLong)
  {
    var key: string := seq(129, _ => 'x');
    TrimOfTrimmed(key);
  }

  // ---------------------------------------------------------------------------
  // Hashing and tagging
  // ---------------------------------------------------------------------------

  /** SHA-256 over the key's text, a parameter of the model. */
  type KeyDigest = string -> Sha256Hex

  /**
   * The digest does not map these two keys to one hash. No digest into
   * 64-character strings is injective on all strings, so this is assumed
   * only of the pair in question.
   */
  predicate KeysApart(digest: KeyDigest, a: string, b: string) {
    digest(a) == digest(b) ==> a == b
  }

  /** `hashIdempotencyKey`: deterministic, and 64 lower-case hex characters long. */
  function HashIdempotencyKey(digest: KeyDigest, key: string): (h: string)
    ensures |h| == 64 && forall i :: 0 <= i < |h| ==> IsLowerHexDigit(h[i])
    ensures h == digest(key)
  {
    digest(key)
  }

  /** Two different keys ("abc" and "abcd", say) that the digest does not collide on hash differently. */
  lemma DistinctKeysHashApart(digest: KeyDigest, a: string, b: string)
    requires KeysApart(digest, a, b) && a != b
    ensures HashIdempotencyKey(digest, a) != HashIdempotencyKey(digest, b)
  {
  }

  const KeyHashField: string := "idempotencyKeyHash"

  /**
   * `withIdempotencyMetadata`: with a hash, the metadata gains (or has
   * overwritten) its `idempotencyKeyHash` entry and nothing else changes;
   * without one it is returned as it is.
   */
  function WithIdempotencyMetadata(metadata: map<string, Json>, keyHash: Option<string>): (r: map<string, Json>)
    ensures keyHash.None? || keyHash == Some("") ==> r == metadata
    ensures keyHash.Some? && keyHash.value != "" ==>
      && r.Keys == metadata.Keys + {KeyHashField}
      && FieldIsString(r, KeyHashField, keyHash.value)
      && forall k :: k in metadata && k != KeyHashField ==> r[k] == metadata[k]
  {
    match keyHash
    case None => metadata
    case Some(h) => if h == "" then metadata else metadata[KeyHashField := JString(h)]
  }

  // ---------------------------------------------------------------------------
  // Replay
  // ---------------------------------------------------------------------------

  /** One row of `request_audit_logs`. */
  datatype AuditLogRow = AuditLogRow(orgId: string, userId: string, action: string, statusCode: int, metadata: Json)

  const ReplayWindow: nat := 50

  /** The query's filter: same org, user and action, and status 200. */
  predicate Selected(row: AuditLogRow, orgId: string, userId: string, action: string) {
    row.orgId == orgId && row.userId == userId && row.action == action && row.statusCode == 200
  }

  /** The metadata of one user's successful requests for one action in one org, in the table's order. */
  function SuccessfulRequests(rows: seq<AuditLogRow>, orgId: string, userId: string, action: string): (r: seq<Json>)
    ensures |r| <= |rows|
    ensures forall row :: row in rows && Selected(row, orgId, userId, action) ==> row.metadata in r
    ensures forall x :: x in r ==> exists row :: row in rows && Selected(row, orgId, userId, action) && row.metadata == x
  {
    if rows == [] then []
    else
      var rest := SuccessfulRequests(rows[1..], orgId, userId, action);
      var row := rows[0];
      if Selected(row, orgId, userId, action) then [row.metadata] + rest
      else rest
  }

  /**
   * The query's answer: the metadata of the 50 most recent matching rows,
   * with `rows` ordered newest first (the `created_at` descending order).
   */
  function RecentSuccesses(rows: seq<AuditLogRow>, orgId: string, userId: string, action: string): (r: seq<Json>)
    ensures |r| <= ReplayWindow && |r| <= |SuccessfulRequests(rows, orgId, userId, action)|
    ensures |r| == if |SuccessfulRequests(rows, orgId, userId, action)| <= ReplayWindow
                   then |SuccessfulRequests(rows, orgId, userId, action)| else ReplayWindow
    ensures r == SuccessfulRequests(rows, orgId, userId, action)[..|r|]
  {
    var all := SuccessfulRequests(rows, orgId, userId, action);
    if |all| <= ReplayWindow then all else all[..ReplayWindow]
  }

  /** A single row contributes its metadata exactly when the query selects it. */
  lemma SuccessfulRequestsOfOne(row: AuditLogRow, orgId: string, userId: string, action: string)
    ensures SuccessfulRequests([row], orgId, userId, action) ==
      (if Selected(row, orgId, userId, action) then [row.metadata] else [])
  {
    assert [row][1..] == [];
  }

  /**
   * The filter keeps the rows' order and every repeat: filtering a
   * concatenation concatenates the filtered parts.
   */
  lemma {:induction false} SuccessfulRequestsAppend(a: seq<AuditLogRow>, b: seq<AuditLogRow>, orgId: string, userId: string, action: string)
    ensures SuccessfulRequests(a + b, orgId, userId, action) ==
      SuccessfulRequests(a, orgId, userId, action) + SuccessfulRequests(b, orgId, userId, action)
    decreases |a|
  {
    if a != [] {
      assert (a + b)[0] == a[0] && (a + b)[1..] == a[1..] + b;
      SuccessfulRequestsAppend(a[1..], b, orgId, userId, action);
      var rest := SuccessfulRequests(a[1..], orgId, userId, action) + SuccessfulRequests(b, orgId, userId, action);
      if Selected(a[0], orgId, userId, action) {
        assert SuccessfulRequests(a + b, orgId, userId, action) == [a[0].metadata] + rest;
      } else {
        assert SuccessfulRequests(a + b, orgId, userId, action) == rest;
      }
    } else {
      assert a + b == b;
    }
  }

  /** The resource filter applies only when both the field and the value are non-empty. */
  predicate ResourceFilterOn(resourceField: Option<string>, resourceValue: Option<string>) {
    resourceField.Some? && resourceField.value != "" && resourceValue.Some? && resourceValue.value != ""
  }

  /**
   * An entry a request can be replayed from: object metadata tagged with the
   * same key hash, carrying the requested resource when the filter is on,
   * and holding a response that is a (non-null) object.
   */
  predicate ReplayMatch(entry: Json, keyHash: string, resourceField: Option<string>, resourceValue: Option<string>) {
    && entry.JObject?
    && FieldIsString(entry.fields, KeyHashField, keyHash)
    && (ResourceFilterOn(resourceField, resourceValue) ==> FieldIsString(entry.fields, resourceField.value, resourceValue.value))
    && "response" in entry.fields
    && IsObjectLike(entry.fields["response"])
  }

  /** The position of the first replayable entry, or `|entries|` when there is none. */
  function FirstMatchIndex(entries: seq<Json>, keyHash: string, resourceField: Option<string>, resourceValue: Option<string>): (i: nat)
    ensures i <= |entries|
    ensures forall j :: 0 <= j < i ==> !ReplayMatch(entries[j], keyHash, resourceField, resourceValue)
    ensures i < |entries| ==> ReplayMatch(entries[i], keyHash, resourceField, resourceValue)
  {
    if entries == [] then 0
    else if ReplayMatch(entries[0], keyHash, resourceField, resourceValue) then 0
    else 1 + FirstMatchIndex(entries[1..], keyHash, resourceField, resourceValue)
  }

  /** The response replayed from a sequence of entries scanned in order. */
  function FirstReplay(entries: seq<Json>, keyHash: string, resourceField: Option<string>, resourceValue: Option<string>): (r: Option<Json>)
    ensures r.Some? ==> IsObjectLike(r.value)
  {
    var i := FirstMatchIndex(entries, keyHash, resourceField, resourceValue);
    if i < |entries| then Some(entries[i].fields["response"]) else None
  }

  /**
   * `findIdempotentSuccess`. `log` is the audit table ordered newest first,
   * or None when the query fails.
   */
  method FindIdempotentSuccess(
    log: Option<seq<AuditLogRow>>,
    orgId: string, userId: string, action: string,
    keyHash: Option<string>,
    resourceField: Option<string>, resourceValue: Option<string>)
    returns (r: Option<Json>)
    ensures keyHash.None? || keyHash == Some("") || log.None? ==> r.None?
    ensures keyHash.Some? && keyHash.value != "" && log.Some? ==>
      r == FirstReplay(RecentSuccesses(log.value, orgId, userId, action), keyHash.value, resourceField, resourceValue)
  {
    if keyHash.None? || keyHash.value == "" {
      return None;
    }
    if log.None? {
      return None;
    }
    var entries := RecentSuccesses(log.value, orgId, userId, action);
    var h := keyHash.value;
    var i := 0;
    while i < |entries|
      invariant 0 <= i <= |entries|
      invariant forall j :: 0 <= j < i ==> !ReplayMatch(entries[j], h, resourceField, resourceValue)
    {
      var entry := entries[i];
      if !entry.JObject? {
        i := i + 1;
        continue;
      }
      var metadata := entry.fields;
      if !FieldIsString(metadata, KeyHashField, h) {
        i := i + 1;
        continue;
      }
      if ResourceFilterOn(resourceField, resourceValue) {
        if !FieldIsString(metadata, resourceField.value, resourceValue.value) {
          i := i + 1;
          continue;
        }
      }
      if "response" in metadata && IsObjectLike(metadata["response"]) {
        FirstMatchIsAt(entries, h, resourceField, resourceValue, i);
        return Some(metadata["response"]);
      }
      i := i + 1;
    }
    FirstMatchIsAt(entries, h, resourceField, resourceValue, |entries|);
    return None;
  }

  /** The first index is pinned down by "nothing before it matches, and it matches or is the end". */
  lemma {:induction false} FirstMatchIsAt(entries: seq<Json>, keyHash: string, resourceField: Option<string>, resourceValue: Option<string>, i: nat)
    requires i <= |entries|
    requires forall j :: 0 <= j < i ==> !ReplayMatch(entries[j], keyHash, resourceField, resourceValue)
    requires i < |entries| ==> ReplayMatch(entries[i], keyHash, resourceField, resourceValue)
    ensures FirstMatchIndex(entries, keyHash, resourceField, resourceValue) == i
  {
    if i > 0 {
      FirstMatchIsAt(entries[1..], keyHash, resourceField, resourceValue, i - 1);
    }
  }

  /** A replayed response comes from an entry tagged with the same key hash (and the same resource when filtered). */
  lemma ReplayComesFromSameKey(entries: seq<Json>, keyHash: string, resourceField: Option<string>, resourceValue: Option<string>)
    requires FirstReplay(entries, keyHash, resourceField, resourceValue).Some?
    ensures
      var i := FirstMatchIndex(entries, keyHash, resourceField, resourceValue);
      && i < |entries|
      && entries[i].JObject?
      && FieldIsString(entries[i].fields, KeyHashField, keyHash)
      && (ResourceFilterOn(resourceField, resourceValue) ==> FieldIsString(entries[i].fields, resourceField.value, resourceValue.value))
      && FirstReplay(entries, keyHash, resourceField, resourceValue) == Some(entries[i].fields["response"])
  {
  }

  /**
   * An entry that does not qualify (same key but no object response, say)
   * does not stop the scan: the answer is the one for the entries after it.
   */
  lemma SkippedEntryDoesNotStopScan(entries: seq<Json>, keyHash: string, resourceField: Option<string>, resourceValue: Option<string>)
    requires entries != [] && !ReplayMatch(entries[0], keyHash, resourceField, resourceValue)
    ensures FirstReplay(entries, keyHash, resourceField, resourceValue) == FirstReplay(entries[1..], keyHash, resourceField, resourceValue)
  {
  }

  /** Without any replayable entry there is nothing to replay. */
  lemma NoMatchNoReplay(entries: seq<Json>, keyHash: string, resourceField: Option<string>, resourceValue: Option<string>)
    requires forall j :: 0 <= j < |entries| ==> !ReplayMatch(entries[j], keyHash, resourceField, resourceValue)
    ensures FirstReplay(entries, keyHash, resourceField, resourceValue).None?
  {
    FirstMatchIsAt(entries, keyHash, resourceField, resourceValue, |entries|);
  }

  /**
   * The round trip the helpers exist for: when the newest successful request
   * of the user for the action was logged with `withIdempotencyMetadata` and a
   * response object, a retry with the same key hash is answered with that
   * response.
   */
  lemma RecordedSuccessIsReplayed(
    rows: seq<AuditLogRow>, orgId: string, userId: string, action: string,
    metadata: map<string, Json>, keyHash: string)
    requires keyHash != ""
    requires "response" in metadata && IsObjectLike(metadata["response"])
    requires rows != [] && rows[0] == AuditLogRow(orgId, userId, action, 200, JObject(WithIdempotencyMetadata(metadata, Some(keyHash))))
    ensures FirstReplay(RecentSuccesses(rows, orgId, userId, action), keyHash, None, None) == Some(metadata["response"])
  {
    var entries := RecentSuccesses(rows, orgId, userId, action);
    assert SuccessfulRequests(rows, orgId, userId, action)[0] == rows[0].metadata;
    assert entries[0] == rows[0].metadata;
    FirstMatchIsAt(entries, keyHash, None, None, 0);
  }
}
