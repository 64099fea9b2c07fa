/** The writer's validate, assign, publish pipeline (internal/writer/ingest). */
module Ingest {
  import opened Text
  import opened Notifications
  import opened ErrorTrees

  // --- Text classes ---------------------------------------------------------------------------

  predicate IsAlphaNumeric(c: char) {
    'A' <= c <= 'Z' || 'a' <= c <= 'z' || '0' <= c <= '9'
  }

  /** Thirty alphanumeric characters: a Pushover user or group key. */
  predicate IsPushoverKey(s: string) {
    |s| == 30 && forall i | 0 <= i < |s| :: IsAlphaNumeric(s[i])
  }

  predicate IsDeviceName(s: string) {
    s != "" && forall i | 0 <= i < |s| :: IsAlphaNumeric(s[i]) || s[i] == '_' || s[i] == '-'
  }

  /** An identifier: a letter or underscore, then letters, digits and underscores. */
  predicate IsDataKey(s: string) {
    && s != "" && !('0' <= s[0] <= '9')
    && forall i | 0 <= i < |s| :: IsAlphaNumeric(s[i]) || s[i] == '_'
  }

  lemma TrimmedAwayIffAllSpace(s: string)
    ensures TrimSpace(s) == "" <==> AllSpace(s)
  {
    var i, j := TrimSpaceSlice(s);
    if TrimSpace(s) == "" {
      assert s == s[..i] + s[j..];
    } else {
      assert IsTrimmed(s[i..j]) && !IsSpace(s[i]);
    }
  }

  // --- The rules ---------------------------------------------------------------------------------

  /** Whether url.Parse accepts a text and finds it absolute. */
  type UrlCheck = string -> bool

  predicate ContentAllowed(c: Content) {
    && !AllSpace(c.title) && |c.title| <= 250
    && 0 < |c.body| <= 1024
    && -2 <= c.priority <= 2
    && |c.data| <= 32
    && forall k | k in c.data :: IsDataKey(k) && ByteLength(k) <= 64 && ByteLength(c.data[k]) <= 512
  }

  predicate PushoverAllowed(t: PushoverTarget, absolute: UrlCheck) {
    && IsPushoverKey(t.userOrGroupKey)
    && (t.deviceName == "" || (IsDeviceName(t.deviceName) && ByteLength(t.deviceName) <= 25))
    && (t.url == "" || (absolute(t.url) && ByteLength(t.url) <= 512))
    && (t.urlTitle == "" || (t.url != "" && ByteLength(t.urlTitle) <= 100))
  }

  /** The canonical schema, as one condition on a notification. */
  predicate WellFormed(n: Notification, absolute: UrlCheck) {
    && n.content.Some? && ContentAllowed(n.content.value)
    && n.target.Pushover? && n.target.arm.Some? && PushoverAllowed(n.target.arm.value, absolute)
    && (n.expiresAt.Some? && n.createdAt.Some? ==> n.createdAt.value <= n.expiresAt.value)
    && ByteLength(n.idempotencyKey) <= 128
  }

  /** One way each in which a notification can break the schema. */
  datatype Rule =
    | TitleRequired | TitleBlank | TitleTooLong
    | BodyRequired | BodyTooLong
    | PriorityOutOfRange
    | TooManyEntries | KeyInvalid(key: string) | ValueTooLong(key: string)
    | TargetMissing | UnknownArm
    | UserKeyRequired | UserKeyMalformed
    | DeviceTooLong | DeviceMalformed
    | UrlTooLong | UrlMalformed
    | UrlTitleTooLong | UrlTitleRequiresUrl
    | ExpiresBeforeCreated
    | IdempotencyKeyTooLong

  /** Content without a message breaks the two rules about required texts and no other. */
  predicate BreaksContent(c: Option<Content>, rule: Rule) {
    match c
    case None => rule.TitleRequired? || rule.BodyRequired?
    case Some(c) =>
      match rule
      case TitleRequired => c.title == ""
      case TitleBlank => c.title != "" && AllSpace(c.title)
      case TitleTooLong => |c.title| > 250 && !AllSpace(c.title)
      case BodyRequired => c.body == ""
      case BodyTooLong => |c.body| > 1024
      case PriorityOutOfRange => c.priority !in {-2, -1, 0, 1, 2}
      case TooManyEntries => |c.data| > 32
      case KeyInvalid(k) => k in c.data && (!IsDataKey(k) || ByteLength(k) > 64)
      case ValueTooLong(k) => k in c.data && ByteLength(c.data[k]) > 512
      case _ => false
  }

  predicate BreaksPushover(t: PushoverTarget, rule: Rule, absolute: UrlCheck) {
    match rule
    case UserKeyRequired => t.userOrGroupKey == ""
    case UserKeyMalformed => t.userOrGroupKey != "" && !IsPushoverKey(t.userOrGroupKey)
    case DeviceTooLong => ByteLength(t.deviceName) > 25
    case DeviceMalformed => t.deviceName != "" && !IsDeviceName(t.deviceName)
    case UrlTooLong => ByteLength(t.url) > 512
    case UrlMalformed => t.url != "" && ByteLength(t.url) <= 512 && !absolute(t.url)
    case UrlTitleTooLong => ByteLength(t.urlTitle) > 100
    case UrlTitleRequiresUrl => t.urlTitle != "" && t.url == ""
    case _ => false
  }

  predicate BreaksTarget(t: Target, rule: Rule, absolute: UrlCheck) {
    match t
    case Unset => rule.TargetMissing?
    case OtherArm => rule.UnknownArm?
    case Pushover(None) => rule.UserKeyRequired?
    case Pushover(Some(arm)) => BreaksPushover(arm, rule, absolute)
  }

  predicate BreaksTimestamps(n: Notification, rule: Rule) {
    rule.ExpiresBeforeCreated? && n.expiresAt.Some? && n.createdAt.Some? && n.expiresAt.value < n.createdAt.value
  }

  predicate BreaksIdempotency(key: string, rule: Rule) {
    rule.IdempotencyKeyTooLong? && ByteLength(key) > 128
  }

  predicate Breaks(n: Notification, rule: Rule, absolute: UrlCheck) {
    || BreaksContent(n.content, rule)
    || BreaksTarget(n.target, rule, absolute)
    || BreaksTimestamps(n, rule)
    || BreaksIdempotency(n.idempotencyKey, rule)
  }

  /** The field error that reports a broken rule. */
  function Report(rule: Rule): FieldError {
    match rule
    case TitleRequired => FieldError("content.title", "required", "")
    case TitleBlank => FieldError("content.title", "whitespace-only", "")
    case TitleTooLong => FieldError("content.title", "too-long", "")
    case BodyRequired => FieldError("content.body", "required", "")
    case BodyTooLong => FieldError("content.body", "too-long", "")
    case PriorityOutOfRange => FieldError("content.priority", "out-of-range", "must be in [-2, 2]")
    case TooManyEntries => FieldError("content.data", "too-many-entries", "")
    case KeyInvalid(k) => FieldError("content.data", "key-invalid", k)
    case ValueTooLong(k) => FieldError("content.data", "value-too-long", k)
    case TargetMissing => FieldError("target", "missing", "")
    case UnknownArm => FieldError("target", "unknown-arm", "")
    case UserKeyRequired => FieldError("target.pushover.user_or_group_key", "required", "")
    case UserKeyMalformed => FieldError("target.pushover.user_or_group_key", "malformed", "")
    case DeviceTooLong => FieldError("target.pushover.device_name", "too-long", "")
    case DeviceMalformed => FieldError("target.pushover.device_name", "malformed", "")
    case UrlTooLong => FieldError("target.pushover.url", "too-long", "")
    case UrlMalformed => FieldError("target.pushover.url", "malformed", "")
    case UrlTitleTooLong => FieldError("target.pushover.url_title", "too-long", "")
    case UrlTitleRequiresUrl => FieldError("target.pushover.url_title", "requires-url", "")
    case ExpiresBeforeCreated => FieldError("expires_at", "before-created-at", "")
    case IdempotencyKeyTooLong => FieldError("idempotency_key", "too-long", "")
  }

  function Reports(rules: seq<Rule>): (fields: seq<FieldError>)
    ensures |fields| == |rules|
    ensures forall i | 0 <= i < |rules| :: fields[i] == Report(rules[i])
  {
    seq(|rules|, i requires 0 <= i < |rules| => Report(rules[i]))
  }

  lemma ReportsAppend(a: seq<Rule>, b: seq<Rule>)
    ensures Reports(a + b) == Reports(a) + Reports(b)
  {
  }

  // --- The walk over the notification -------------------------------------------------------------

  /** The list of field errors that every helper appends to. */
  class Errors {
    var items: seq<FieldError>

    constructor ()
      ensures items == []
    {
      items := [];
    }

    method Add(field: string, code: string, message: string)
      modifies this
      ensures items == old(items) + [FieldError(field, code, message)]
    {
      items := items + [FieldError(field, code, message)];
    }
  }

  predicate Distinct(rules: seq<Rule>) {
    forall i, j | 0 <= i < j < |rules| :: rules[i] != rules[j]
  }

  /** Each rule that holds of `broken` is there once, and no other. */
  ghost predicate Lists(rules: seq<Rule>, broken: Rule -> bool) {
    && Distinct(rules)
    && forall rule :: rule in rules <==> broken(rule)
  }

  lemma ListsTogether(a: seq<Rule>, isA: Rule -> bool, b: seq<Rule>, isB: Rule -> bool, both: Rule -> bool)
    requires Lists(a, isA) && Lists(b, isB)
    requires forall rule :: both(rule) <==> isA(rule) || isB(rule)
    requires forall rule :: !(isA(rule) && isB(rule))
    ensures Lists(a + b, both)
  {
    forall i, j | 0 <= i < j < |a + b| ensures (a + b)[i] != (a + b)[j] {
      if i < |a| <= j {
        assert a[i] in a && b[j - |a|] in b;
        assert isA(a[i]) && isB(b[j - |a|]);
      }
    }
    forall rule ensures rule in a + b <==> both(rule) {
      assert rule in a <==> isA(rule);
      assert rule in b <==> isB(rule);
    }
  }

  /** At most one of the four holds. */
  predicate Exclusive(a: bool, b: bool, c: bool, d: bool) {
    !(a && b) && !(a && c) && !(a && d) && !(b && c) && !(b && d) && !(c && d)
  }

  lemma FourTogether(
    a: seq<Rule>, isA: Rule -> bool, b: seq<Rule>, isB: Rule -> bool, c: seq<Rule>, isC: Rule -> bool,
    d: seq<Rule>, isD: Rule -> bool, all: Rule -> bool)
    requires Lists(a, isA) && Lists(b, isB) && Lists(c, isC) && Lists(d, isD)
    requires forall rule :: all(rule) <==> isA(rule) || isB(rule) || isC(rule) || isD(rule)
    requires forall rule :: Exclusive(isA(rule), isB(rule), isC(rule), isD(rule))
    ensures Lists(a + b + c + d, all)
    ensures Reports(a + b + c + d) == Reports(a) + Reports(b) + Reports(c) + Reports(d)
  {
    var isTwo := (rule: Rule) => isA(rule) || isB(rule);
    var isThree := (rule: Rule) => isA(rule) || isB(rule) || isC(rule);
    ListsTogether(a, isA, b, isB, isTwo);
    ListsTogether(a + b, isTwo, c, isC, isThree);
    ListsTogether(a + b + c, isThree, d, isD, all);
  }

  predicate BreaksData(data: map<string, string>, keys: set<string>, rule: Rule) {
    match rule
    case KeyInvalid(k) => k in data && k in keys && (!IsDataKey(k) || ByteLength(k) > 64)
    case ValueTooLong(k) => k in data && k in keys && ByteLength(data[k]) > 512
    case _ => false
  }

  /** The violations of the data entries that have been read. */
  ghost predicate ListsData(rules: seq<Rule>, data: map<string, string>, read: set<string>) {
    Lists(rules, rule => BreaksData(data, read, rule))
  }

  method ValidateEntry(data: map<string, string>, k: string, errs: Errors) returns (ghost rules: seq<Rule>)
    requires k in data
    modifies errs
    ensures errs.items == old(errs.items) + Reports(rules)
    ensures ListsData(rules, data, {k})
  {
    rules := [];
    if ByteLength(k) > 64 || !IsDataKey(k) {
      errs.Add("content.data", "key-invalid", k);
      rules := rules + [KeyInvalid(k)];
    }
    if ByteLength(data[k]) > 512 {
      errs.Add("content.data", "value-too-long", k);
      rules := rules + [ValueTooLong(k)];
    }
  }

  lemma OneMoreKey(data: map<string, string>, read: set<string>, k: string, rules: seq<Rule>, here: seq<Rule>)
    requires k !in read
    requires ListsData(rules, data, read) && ListsData(here, data, {k})
    ensures ListsData(rules + here, data, read + {k})
  {
    ListsTogether(rules, rule => BreaksData(data, read, rule), here, rule => BreaksData(data, {k}, rule),
                  rule => BreaksData(data, read + {k}, rule));
  }

  lemma ReadOn(keys: set<string>, visited: set<string>, unread: set<string>, k: string)
    requires visited !! unread && visited + unread == keys && k in unread
    ensures visited + {k} !! unread - {k} && (visited + {k}) + (unread - {k}) == keys
    ensures |unread - {k}| < |unread|
  {
  }

  lemma ReportedOn(start: seq<FieldError>, items: seq<FieldError>, rules: seq<Rule>, here: seq<Rule>)
    requires items == start + Reports(rules)
    ensures items + Reports(here) == start + Reports(rules + here)
  {
    ReportsAppend(rules, here);
  }

  /** The loop over the data map, which Go walks in an order of its own. */
  method ValidateData(data: map<string, string>, errs: Errors) returns (ghost rules: seq<Rule>)
    modifies errs
    ensures errs.items == old(errs.items) + Reports(rules)
    ensures ListsData(rules, data, data.Keys)
  {
    rules := [];
    var unread := data.Keys;
    ghost var visited: set<string> := {};
    while unread != {}
      invariant visited !! unread && visited + unread == data.Keys
      invariant errs.items == old(errs.items) + Reports(rules)
      invariant ListsData(rules, data, visited)
      decreases |unread|
    {
      var k :| k in unread;
      ghost var items := errs.items;
      ghost var here := ValidateEntry(data, k, errs);
      ReportedOn(old(errs.items), items, rules, here);
      OneMoreKey(data, visited, k, rules, here);
      ReadOn(data.Keys, visited, unread, k);
      rules := rules + here;
      visited := visited + {k};
      unread := unread - {k};
    }
    assert visited == data.Keys;
  }

  /** Whether the rule is about one of these and broken. */
  predicate BreaksTitle(c: Content, rule: Rule) {
    (rule.TitleRequired? || rule.TitleBlank? || rule.TitleTooLong?) && BreaksContent(Some(c), rule)
  }

  predicate BreaksBody(c: Content, rule: Rule) {
    (rule.BodyRequired? || rule.BodyTooLong?) && BreaksContent(Some(c), rule)
  }

  predicate BreaksNumbers(c: Content, rule: Rule) {
    (rule.PriorityOutOfRange? || rule.TooManyEntries?) && BreaksContent(Some(c), rule)
  }

  method ValidateTitle(c: Content, errs: Errors) returns (ghost rules: seq<Rule>)
    modifies errs
    ensures errs.items == old(errs.items) + Reports(rules)
    ensures Lists(rules, rule => BreaksTitle(c, rule))
  {
    rules := [];
    TrimmedAwayIffAllSpace(c.title);
    if c.title == "" {
      errs.Add("content.title", "required", "");
      rules := [TitleRequired];
    } else if TrimSpace(c.title) == "" {
      errs.Add("content.title", "whitespace-only", "");
      rules := [TitleBlank];
    } else if |c.title| > 250 {
      errs.Add("content.title", "too-long", "");
      rules := [TitleTooLong];
    }
  }

  method ValidateBody(c: Content, errs: Errors) returns (ghost rules: seq<Rule>)
    modifies errs
    ensures errs.items == old(errs.items) + Reports(rules)
    ensures Lists(rules, rule => BreaksBody(c, rule))
  {
    rules := [];
    if c.body == "" {
      errs.Add("content.body", "required", "");
      rules := [BodyRequired];
    } else if |c.body| > 1024 {
      errs.Add("content.body", "too-long", "");
      rules := [BodyTooLong];
    }
  }

  method ValidateNumbers(c: Content, errs: Errors) returns (ghost rules: seq<Rule>)
    modifies errs
    ensures errs.items == old(errs.items) + Reports(rules)
    ensures Lists(rules, rule => BreaksNumbers(c, rule))
  {
    rules := [];
    if c.priority < -2 || c.priority > 2 {
      errs.Add("content.priority", "out-of-range", "must be in [-2, 2]");
      rules := [PriorityOutOfRange];
    }
    if |c.data| > 32 {
      errs.Add("content.data", "too-many-entries", "");
      rules := rules + [TooManyEntries];
    }
  }

  lemma ContentTogether(c: Content, title: seq<Rule>, body: seq<Rule>, numbers: seq<Rule>, data: seq<Rule>)
    requires Lists(title, rule => BreaksTitle(c, rule)) && Lists(body, rule => BreaksBody(c, rule))
    requires Lists(numbers, rule => BreaksNumbers(c, rule))
    requires ListsData(data, c.data, c.data.Keys)
    ensures Lists(title + body + numbers + data, rule => BreaksContent(Some(c), rule))
    ensures Reports(title + body + numbers + data) == Reports(title) + Reports(body) + Reports(numbers) + Reports(data)
  {
    FourTogether(
      title, rule => BreaksTitle(c, rule), body, rule => BreaksBody(c, rule), numbers, rule => BreaksNumbers(c, rule),
      data, rule => BreaksData(c.data, c.data.Keys, rule), rule => BreaksContent(Some(c), rule));
  }

  method ValidateContent(c: Option<Content>, errs: Errors) returns (ghost rules: seq<Rule>)
    modifies errs
    ensures errs.items == old(errs.items) + Reports(rules)
    ensures Lists(rules, rule => BreaksContent(c, rule))
  {
    if c.None? {
      errs.Add("content.title", "required", "");
      errs.Add("content.body", "required", "");
      return [TitleRequired, BodyRequired];
    }
    ghost var title := ValidateTitle(c.value, errs);
    ghost var body := ValidateBody(c.value, errs);
    ghost var numbers := ValidateNumbers(c.value, errs);
    ghost var data := ValidateData(c.value.data, errs);
    ContentTogether(c.value, title, body, numbers, data);
    rules := title + body + numbers + data;
  }

  lemma Regroup(start: seq<FieldError>, a: seq<FieldError>, b: seq<FieldError>, c: seq<FieldError>, d: seq<FieldError>)
    ensures start + a + b + c + d == start + (a + b + c + d)
  {
  }

  predicate BreaksUserKey(t: PushoverTarget, rule: Rule, absolute: UrlCheck) {
    (rule.UserKeyRequired? || rule.UserKeyMalformed?) && BreaksPushover(t, rule, absolute)
  }

  predicate BreaksDevice(t: PushoverTarget, rule: Rule, absolute: UrlCheck) {
    (rule.DeviceTooLong? || rule.DeviceMalformed?) && BreaksPushover(t, rule, absolute)
  }

  predicate BreaksUrl(t: PushoverTarget, rule: Rule, absolute: UrlCheck) {
    (rule.UrlTooLong? || rule.UrlMalformed?) && BreaksPushover(t, rule, absolute)
  }

  predicate BreaksUrlTitle(t: PushoverTarget, rule: Rule, absolute: UrlCheck) {
    (rule.UrlTitleTooLong? || rule.UrlTitleRequiresUrl?) && BreaksPushover(t, rule, absolute)
  }

  function Once(broken: bool, rule: Rule): seq<Rule> {
    if broken then [rule] else []
  }

  method ValidateUserKey(t: PushoverTarget, absolute: UrlCheck, errs: Errors) returns (ghost rules: seq<Rule>)
    modifies errs
    ensures errs.items == old(errs.items) + Reports(rules)
    ensures Lists(rules, rule => BreaksUserKey(t, rule, absolute))
  {
    rules := [];
    if t.userOrGroupKey == "" {
      errs.Add("target.pushover.user_or_group_key", "required", "");
      rules := [UserKeyRequired];
    } else if !IsPushoverKey(t.userOrGroupKey) {
      errs.Add("target.pushover.user_or_group_key", "malformed", "");
      rules := [UserKeyMalformed];
    }
  }

  method ValidateDevice(t: PushoverTarget, absolute: UrlCheck, errs: Errors) returns (ghost rules: seq<Rule>)
    modifies errs
    ensures errs.items == old(errs.items) + Reports(rules)
    ensures Lists(rules, rule => BreaksDevice(t, rule, absolute))
  {
    rules := [];
    if t.deviceName != "" {
      if ByteLength(t.deviceName) > 25 {
        errs.Add("target.pushover.device_name", "too-long", "");
        rules := [DeviceTooLong];
      }
      if !IsDeviceName(t.deviceName) {
        errs.Add("target.pushover.device_name", "malformed", "");
        rules := rules + [DeviceMalformed];
      }
    }
  }

  method ValidateUrl(t: PushoverTarget, absolute: UrlCheck, errs: Errors) returns (ghost rules: seq<Rule>)
    modifies errs
    ensures errs.items == old(errs.items) + Reports(rules)
    ensures Lists(rules, rule => BreaksUrl(t, rule, absolute))
  {
    rules := [];
    if t.url != "" {
      if ByteLength(t.url) > 512 {
        errs.Add("target.pushover.url", "too-long", "");
        rules := [UrlTooLong];
      } else if !absolute(t.url) {
        errs.Add("target.pushover.url", "malformed", "");
        rules := [UrlMalformed];
      }
    }
  }

  method ValidateUrlTitle(t: PushoverTarget, absolute: UrlCheck, errs: Errors) returns (ghost rules: seq<Rule>)
    modifies errs
    ensures errs.items == old(errs.items) + Reports(rules)
    ensures Lists(rules, rule => BreaksUrlTitle(t, rule, absolute))
  {
    rules := Once(t.urlTitle != "" && ByteLength(t.urlTitle) > 100, UrlTitleTooLong)
           + Once(t.urlTitle != "" && t.url == "", UrlTitleRequiresUrl);
    if t.urlTitle != "" {
      if ByteLength(t.urlTitle) > 100 {
        errs.Add("target.pushover.url_title", "too-long", "");
      }
      if t.url == "" {
        errs.Add("target.pushover.url_title", "requires-url", "");
      }
    }
  }

  lemma PushoverTogether(
    t: PushoverTarget, absolute: UrlCheck, key: seq<Rule>, device: seq<Rule>, url: seq<Rule>, title: seq<Rule>)
    requires Lists(key, rule => BreaksUserKey(t, rule, absolute))
    requires Lists(device, rule => BreaksDevice(t, rule, absolute))
    requires Lists(url, rule => BreaksUrl(t, rule, absolute))
    requires Lists(title, rule => BreaksUrlTitle(t, rule, absolute))
    ensures Lists(key + device + url + title, rule => BreaksPushover(t, rule, absolute))
    ensures Reports(key + device + url + title) == Reports(key) + Reports(device) + Reports(url) + Reports(title)
  {
    FourTogether(
      key, rule => BreaksUserKey(t, rule, absolute), device, rule => BreaksDevice(t, rule, absolute),
      url, rule => BreaksUrl(t, rule, absolute), title, rule => BreaksUrlTitle(t, rule, absolute),
      rule => BreaksPushover(t, rule, absolute));
  }

  method ValidateFields(t: PushoverTarget, absolute: UrlCheck, errs: Errors) returns (ghost rules: seq<Rule>)
    modifies errs
    ensures errs.items == old(errs.items) + Reports(rules)
    ensures Lists(rules, rule => BreaksPushover(t, rule, absolute))
  {
    ghost var start := errs.items;
    ghost var key := ValidateUserKey(t, absolute, errs);
    ghost var device := ValidateDevice(t, absolute, errs);
    ghost var url := ValidateUrl(t, absolute, errs);
    ghost var title := ValidateUrlTitle(t, absolute, errs);
    PushoverTogether(t, absolute, key, device, url, title);
    rules := key + device + url + title;
    Regroup(start, Reports(key), Reports(device), Reports(url), Reports(title));
  }

  method ValidatePushover(arm: Option<PushoverTarget>, absolute: UrlCheck, errs: Errors)
    returns (ghost rules: seq<Rule>)
    modifies errs
    ensures errs.items == old(errs.items) + Reports(rules)
    ensures Lists(rules, rule => BreaksTarget(Pushover(arm), rule, absolute))
  {
    if arm.None? {
      errs.Add("target.pushover.user_or_group_key", "required", "");
      rules := [UserKeyRequired];
    } else {
      rules := ValidateFields(arm.value, absolute, errs);
    }
  }

  method ValidateTarget(t: Target, absolute: UrlCheck, errs: Errors) returns (ghost rules: seq<Rule>)
    modifies errs
    ensures errs.items == old(errs.items) + Reports(rules)
    ensures Lists(rules, rule => BreaksTarget(t, rule, absolute))
  {
    match t
    case Unset =>
      errs.Add("target", "missing", "");
      rules := [TargetMissing];
    case Pushover(arm) => rules := ValidatePushover(arm, absolute, errs);
    case OtherArm =>
      errs.Add("target", "unknown-arm", "");
      rules := [UnknownArm];
  }

  method ValidateTimestamps(n: Notification, errs: Errors) returns (ghost rules: seq<Rule>)
    modifies errs
    ensures errs.items == old(errs.items) + Reports(rules)
    ensures Lists(rules, rule => BreaksTimestamps(n, rule))
  {
    rules := [];
    if n.expiresAt.Some? && n.createdAt.Some? {
      if n.expiresAt.value < n.createdAt.value {
        errs.Add("expires_at", "before-created-at", "");
        rules := [ExpiresBeforeCreated];
      }
    }
  }

  method ValidateIdempotency(key: string, errs: Errors) returns (ghost rules: seq<Rule>)
    modifies errs
    ensures errs.items == old(errs.items) + Reports(rules)
    ensures Lists(rules, rule => BreaksIdempotency(key, rule))
  {
    rules := [];
    if ByteLength(key) > 128 {
      errs.Add("idempotency_key", "too-long", "");
      rules := [IdempotencyKeyTooLong];
    }
  }

  lemma NotificationTogether(
    n: Notification, absolute: UrlCheck, content: seq<Rule>, target: seq<Rule>, times: seq<Rule>, key: seq<Rule>)
    requires Lists(content, rule => BreaksContent(n.content, rule))
    requires Lists(target, rule => BreaksTarget(n.target, rule, absolute))
    requires Lists(times, rule => BreaksTimestamps(n, rule))
    requires Lists(key, rule => BreaksIdempotency(n.idempotencyKey, rule))
    ensures Lists(content + target + times + key, rule => Breaks(n, rule, absolute))
    ensures Reports(content + target + times + key)
         == Reports(content) + Reports(target) + Reports(times) + Reports(key)
  {
    FourTogether(
      content, rule => BreaksContent(n.content, rule), target, rule => BreaksTarget(n.target, rule, absolute),
      times, rule => BreaksTimestamps(n, rule), key, rule => BreaksIdempotency(n.idempotencyKey, rule),
      rule => Breaks(n, rule, absolute));
  }

  method Collect(n: Notification, absolute: UrlCheck, errs: Errors) returns (ghost rules: seq<Rule>)
    modifies errs
    ensures errs.items == old(errs.items) + Reports(rules)
    ensures Lists(rules, rule => Breaks(n, rule, absolute))
  {
    ghost var content := ValidateContent(n.content, errs);
    ghost var target := ValidateTarget(n.target, absolute, errs);
    ghost var times := ValidateTimestamps(n, errs);
    ghost var key := ValidateIdempotency(n.idempotencyKey, errs);
    NotificationTogether(n, absolute, content, target, times, key);
    rules := content + target + times + key;
  }

  // --- Sound and complete ---------------------------------------------------------------------------

  /** The field error reports a rule that the notification breaks. */
  ghost predicate IsViolation(n: Notification, e: FieldError, absolute: UrlCheck) {
    exists rule :: Breaks(n, rule, absolute) && Report(rule) == e
  }

  /** One entry for each violation, and nothing else. */
  ghost predicate IsReport(fields: seq<FieldError>, n: Notification, absolute: UrlCheck) {
    forall e :: multiset(fields)[e] == if IsViolation(n, e, absolute) then 1 else 0
  }

  /** FieldErrorCode.Valid of the published API. */
  predicate IsPublishedCode(code: string) {
    code in {
      "before-created-at", "key-invalid", "malformed", "missing", "out-of-range", "required", "requires-url",
      "too-long", "too-many-entries", "unknown-arm", "value-too-long", "whitespace-only"}
  }

  lemma ReportInjective(a: Rule, b: Rule)
    requires Report(a) == Report(b)
    ensures a == b
  {
  }

  lemma {:induction false} ReportsOnce(rules: seq<Rule>, e: FieldError)
    requires Distinct(rules)
    ensures multiset(Reports(rules))[e] == if exists rule :: rule in rules && Report(rule) == e then 1 else 0
  {
    if rules != [] {
      var last := |rules| - 1;
      var front := rules[..last];
      ReportsOnce(front, e);
      assert rules == front + [rules[last]];
      ReportsAppend(front, [rules[last]]);
      assert Reports([rules[last]]) == [Report(rules[last])];
      if Report(rules[last]) == e {
        assert rules[last] in rules;
        forall rule | rule in front ensures Report(rule) != e {
          if Report(rule) == e {
            ReportInjective(rule, rules[last]);
            assert false;
          }
        }
      }
    }
  }

  lemma ListedIsReport(rules: seq<Rule>, n: Notification, absolute: UrlCheck)
    requires Lists(rules, rule => Breaks(n, rule, absolute))
    ensures IsReport(Reports(rules), n, absolute)
  {
    forall e ensures multiset(Reports(rules))[e] == if IsViolation(n, e, absolute) then 1 else 0 {
      ReportsOnce(rules, e);
      if rule :| rule in rules && Report(rule) == e {
        assert Breaks(n, rule, absolute);
      }
      if rule :| Breaks(n, rule, absolute) && Report(rule) == e {
        assert rule in rules;
      }
    }
  }

  lemma ContentAllowedIffNothingBroken(c: Content)
    ensures ContentAllowed(c) <==> forall rule :: !BreaksContent(Some(c), rule)
  {
    if forall rule :: !BreaksContent(Some(c), rule) {
      assert !BreaksContent(Some(c), TitleRequired) && !BreaksContent(Some(c), TitleBlank);
      assert !BreaksContent(Some(c), TitleTooLong) && !BreaksContent(Some(c), BodyRequired);
      assert !BreaksContent(Some(c), BodyTooLong) && !BreaksContent(Some(c), PriorityOutOfRange);
      assert !BreaksContent(Some(c), TooManyEntries);
      forall k | k in c.data ensures IsDataKey(k) && ByteLength(k) <= 64 && ByteLength(c.data[k]) <= 512 {
        assert !BreaksContent(Some(c), KeyInvalid(k)) && !BreaksContent(Some(c), ValueTooLong(k));
      }
    }
  }

  lemma PushoverAllowedIffNothingBroken(t: PushoverTarget, absolute: UrlCheck)
    ensures PushoverAllowed(t, absolute) <==> forall rule :: !BreaksPushover(t, rule, absolute)
  {
    if forall rule :: !BreaksPushover(t, rule, absolute) {
      assert !BreaksPushover(t, UserKeyRequired, absolute) && !BreaksPushover(t, UserKeyMalformed, absolute);
      assert !BreaksPushover(t, DeviceTooLong, absolute) && !BreaksPushover(t, DeviceMalformed, absolute);
      assert !BreaksPushover(t, UrlTooLong, absolute) && !BreaksPushover(t, UrlMalformed, absolute);
      assert !BreaksPushover(t, UrlTitleTooLong, absolute) && !BreaksPushover(t, UrlTitleRequiresUrl, absolute);
    }
  }

  lemma TargetAllowedIffNothingBroken(t: Target, absolute: UrlCheck)
    ensures t.Pushover? && t.arm.Some? && PushoverAllowed(t.arm.value, absolute)
       <==> forall rule :: !BreaksTarget(t, rule, absolute)
  {
    match t
    case Pushover(Some(arm)) =>
      PushoverAllowedIffNothingBroken(arm, absolute);
      assert forall rule :: BreaksTarget(t, rule, absolute) == BreaksPushover(arm, rule, absolute);
    case Pushover(None) => assert BreaksTarget(t, UserKeyRequired, absolute);
    case Unset => assert BreaksTarget(t, TargetMissing, absolute);
    case OtherArm => assert BreaksTarget(t, UnknownArm, absolute);
  }

  /** Breaking no rule is the same as meeting the schema. */
  lemma WellFormedIffNothingBroken(n: Notification, absolute: UrlCheck)
    ensures WellFormed(n, absolute) <==> forall rule :: !Breaks(n, rule, absolute)
  {
    TargetAllowedIffNothingBroken(n.target, absolute);
    if n.content.Some? {
      ContentAllowedIffNothingBroken(n.content.value);
    }
    if forall rule :: !Breaks(n, rule, absolute) {
      assert !Breaks(n, TitleRequired, absolute);
      assert !Breaks(n, ExpiresBeforeCreated, absolute) && !Breaks(n, IdempotencyKeyTooLong, absolute);
      forall rule ensures !BreaksTarget(n.target, rule, absolute) && !BreaksContent(n.content, rule) {
        assert !Breaks(n, rule, absolute);
      }
    }
  }

  /** Whatever order the data map was read in, the same errors come out, each as often. */
  lemma OrderDoesNotMatter(a: seq<FieldError>, b: seq<FieldError>, n: Notification, absolute: UrlCheck)
    requires IsReport(a, n, absolute) && IsReport(b, n, absolute)
    ensures multiset(a) == multiset(b) && |a| == |b|
  {
    assert multiset(a) == multiset(b);
    assert |multiset(a)| == |multiset(b)|;
  }

  lemma ReportedCodesPublished(rule: Rule)
    ensures IsPublishedCode(Report(rule).code)
  {
  }

  /** No error exactly for a notification that meets the schema; otherwise one per violation, with a published code. */
  method Validate(n: Notification, absolute: UrlCheck) returns (verr: Option<Err>)
    ensures verr.None? <==> WellFormed(n, absolute)
    ensures verr.Some? ==> verr.value.ValidationError? && IsReport(verr.value.fields, n, absolute)
    ensures verr.Some? ==> forall e | e in verr.value.fields :: IsPublishedCode(e.code)
  {
    var errs := new Errors();
    ghost var rules := Collect(n, absolute, errs);
    assert errs.items == Reports(rules);
    ListedIsReport(rules, n, absolute);
    WellFormedIffNothingBroken(n, absolute);
    assert forall rule :: rule in rules <==> Breaks(n, rule, absolute);
    if |errs.items| == 0 {
      verr := None;
    } else {
      verr := Some(ValidationError(errs.items));
      assert rules[0] in rules;
      forall i | 0 <= i < |rules| ensures IsPublishedCode(Report(rules[i]).code) {
        ReportedCodesPublished(rules[i]);
      }
    }
  }

  /** The same target but for the sound. */
  predicate DifferInSound(a: Target, b: Target) {
    || a == b
    || (a.Pushover? && a.arm.Some? && b.Pushover? && b.arm.Some?
        && b.arm.value == a.arm.value.(sound := b.arm.value.sound))
  }

  /** Validation reads neither the sound nor the caller's id and service: every notification gets the same reports. */
  lemma UnreadFields(n: Notification, other: Notification, absolute: UrlCheck)
    requires other == n.(id := other.id, originatingService := other.originatingService, target := other.target)
    requires DifferInSound(n.target, other.target)
    ensures WellFormed(n, absolute) <==> WellFormed(other, absolute)
    ensures forall fields :: IsReport(fields, n, absolute) <==> IsReport(fields, other, absolute)
  {
    forall rule ensures Breaks(n, rule, absolute) == Breaks(other, rule, absolute) {
    }
    forall e ensures IsViolation(n, e, absolute) == IsViolation(other, e, absolute) {
    }
  }

  // --- The documented schema -------------------------------------------------------------------------

  /** Content as the data model asks for it: title without outer white space, lengths in characters. */
  predicate ContentDocumented(c: Content) {
    && 1 <= |c.title| <= 250 && IsTrimmed(c.title)
    && 1 <= |c.body| <= 1024
    && -2 <= c.priority <= 2
    && |c.data| <= 32
    && forall k | k in c.data :: IsDataKey(k) && |k| <= 64 && |c.data[k]| <= 512
  }

  predicate PushoverDocumented(t: PushoverTarget, absolute: UrlCheck) {
    && IsPushoverKey(t.userOrGroupKey)
    && (t.deviceName == "" || (IsDeviceName(t.deviceName) && |t.deviceName| <= 25))
    && |t.sound| <= 25
    && (t.url == "" || (absolute(t.url) && |t.url| <= 512))
    && (t.urlTitle == "" || (t.url != "" && |t.urlTitle| <= 100))
  }

  predicate NoServerFields(n: Notification) {
    n.id == "" && n.createdAt.None? && n.originatingService == ""
  }

  /** A request as the data model asks for it. */
  predicate Documented(n: Notification, absolute: UrlCheck) {
    && NoServerFields(n) && |n.idempotencyKey| <= 128
    && n.content.Some? && ContentDocumented(n.content.value)
    && n.target.Pushover? && n.target.arm.Some? && PushoverDocumented(n.target.arm.value, absolute)
  }

  /** The lengths that the code takes in bytes and the data model in characters. */
  predicate FitsInBytes(n: Notification)
    requires n.content.Some? && n.target.Pushover? && n.target.arm.Some?
  {
    var c, t := n.content.value, n.target.arm.value;
    && (forall k | k in c.data :: ByteLength(c.data[k]) <= 512)
    && ByteLength(t.url) <= 512 && ByteLength(t.urlTitle) <= 100 && ByteLength(n.idempotencyKey) <= 128
  }

  lemma {:induction false} AsciiBytes(s: string)
    requires forall i | 0 <= i < |s| :: s[i] < '\U{80}'
    ensures ByteLength(s) == |s|
  {
    if s != "" {
      AsciiBytes(s[1..]);
    }
  }

  /** What the code accepts is documented if and only if the three things it does not look at are in order. */
  lemma AcceptedIsDocumentedIff(n: Notification, absolute: UrlCheck)
    requires WellFormed(n, absolute)
    ensures Documented(n, absolute) <==>
            NoServerFields(n) && IsTrimmed(n.content.value.title) && |n.target.arm.value.sound| <= 25
  {
  }

  lemma DocumentedContent(c: Content)
    requires ContentDocumented(c)
    ensures ContentAllowed(c) <==> forall k | k in c.data :: ByteLength(c.data[k]) <= 512
  {
    assert !IsSpace(c.title[0]);
    forall k | k in c.data ensures ByteLength(k) == |k| {
      AsciiBytes(k);
    }
  }

  lemma DocumentedPushover(t: PushoverTarget, absolute: UrlCheck)
    requires PushoverDocumented(t, absolute)
    ensures PushoverAllowed(t, absolute) <==> ByteLength(t.url) <= 512 && ByteLength(t.urlTitle) <= 100
  {
    if t.deviceName != "" {
      AsciiBytes(t.deviceName);
    }
  }

  /** What is documented is accepted if and only if its lengths fit in bytes as well. */
  lemma DocumentedIsAcceptedIff(n: Notification, absolute: UrlCheck)
    requires Documented(n, absolute)
    ensures WellFormed(n, absolute) <==> FitsInBytes(n)
  {
    DocumentedContent(n.content.value);
    DocumentedPushover(n.target.arm.value, absolute);
  }

  /** An idempotency key of 65 two-byte characters is documented and refused; a padded title is accepted and is not. */
  lemma SchemasPart(n: Notification, absolute: UrlCheck)
    requires Documented(n, absolute) && WellFormed(n, absolute)
    ensures var long := n.(idempotencyKey := seq(65, _ => '\U{E9}'));
      Documented(long, absolute) && !WellFormed(long, absolute)
    ensures var padded := n.(content := Some(n.content.value.(title := " a ")));
      WellFormed(padded, absolute) && !Documented(padded, absolute)
  {
    TwoByteKey(65);
    assert !IsSpace(" a "[1]);
    assert !AllSpace(" a ") && !IsTrimmed(" a ");
  }

  lemma {:induction false} TwoByteKey(k: nat)
    ensures ByteLength(seq(k, _ => '\U{E9}')) == 2 * k
  {
    if k > 0 {
      assert seq(k, _ => '\U{E9}')[1..] == seq(k - 1, _ => '\U{E9}');
      TwoByteKey(k - 1);
    }
  }

  // --- Accept -------------------------------------------------------------------------------------------

  datatype PublishInput = PublishInput(body: Bytes, id: string)

  /** The substrate: it answers each Publish call with an error of its choice, or none. */
  class Publisher {
    const answers: nat -> Option<Err>
    var calls: seq<PublishInput>

    constructor (answers: nat -> Option<Err>)
      ensures this.answers == answers && calls == []
    {
      this.answers := answers;
      calls := [];
    }

    method Publish(input: PublishInput) returns (err: Option<Err>)
      modifies this
      ensures calls == old(calls) + [input] && err == answers(|old(calls)|)
    {
      err := answers(|calls|);
      calls := calls + [input];
    }
  }

  /** The protobuf message the caller hands over, which Accept writes to. */
  class Message {
    var value: Notification

    constructor (value: Notification)
      ensures this.value == value
    {
      this.value := value;
    }
  }

  datatype Drawn = Id(text: string) | NoId(cause: Err)

  /** What one Accept reads besides its arguments: the clock and the id generator. */
  datatype Reading = Reading(instant: Time, id: Drawn)

  datatype Accepted = Accepted(id: string, at: Time) | Refused(err: Err)

  const NANOS_PER_MILLI := 1_000_000

  function TruncateToMillis(t: Time): (r: Time)
    ensures r <= t < r + NANOS_PER_MILLI && r % NANOS_PER_MILLI == 0
  {
    t - t % NANOS_PER_MILLI
  }

  /** The notification with the fields the server controls. */
  function Stamped(n: Notification, id: string, at: Time, service: string): Notification {
    n.(id := id, createdAt := Some(at), originatingService := service)
  }

  const EMPTY_BODY := ValidationError([FieldError("notification", "required", "request body is empty")])

  /** What Accept may do to a notification, the publisher's calls and its caller. */
  datatype Effect = Effect(value: Notification, calls: seq<PublishInput>, result: Accepted)

  /** An accepted-for-publishing notification: stamp, marshal, publish. */
  function PublishEffect(
    n: Notification, service: string, reading: Reading, codec: Codec, calls: seq<PublishInput>,
    answer: Option<Err>): Effect
  {
    match reading.id
    case NoId(cause) => Effect(n, calls, Refused(Wrapped("ingest: generate notification_id", cause)))
    case Id(id) =>
      var at := TruncateToMillis(reading.instant);
      var stamped := Stamped(n, id, at, service);
      var body := codec.marshal(stamped);
      if body.None? then
        Effect(stamped, calls, Refused(Wrapped("ingest: marshal notification", Opaque("proto: marshal"))))
      else
        Effect(stamped, calls + [PublishInput(body.value, id)],
               if answer.Some? then Refused(answer.value) else Accepted(id, at))
  }

  /** Every effect Accept can have: the order of the reported violations is the only freedom. */
  ghost predicate IsEffect(
    e: Effect, n: Notification, service: string, reading: Reading, codec: Codec, absolute: UrlCheck,
    calls: seq<PublishInput>, answer: Option<Err>)
  {
    if WellFormed(n, absolute) then e == PublishEffect(n, service, reading, codec, calls, answer)
    else
      && e.value == n && e.calls == calls
      && e.result.Refused? && e.result.err.ValidationError? && IsReport(e.result.err.fields, n, absolute)
  }

  class Ingester {
    const publisher: Publisher
    const codec: Codec
    const absolute: UrlCheck

    constructor (publisher: Publisher, codec: Codec, absolute: UrlCheck)
      ensures this.publisher == publisher && this.codec == codec && this.absolute == absolute
    {
      this.publisher, this.codec, this.absolute := publisher, codec, absolute;
    }

    method Accept(n: Message?, service: string, reading: Reading) returns (result: Accepted)
      modifies n, publisher
      ensures n == null ==> result == Refused(EMPTY_BODY) && publisher.calls == old(publisher.calls)
      ensures n != null ==>
        IsEffect(Effect(n.value, publisher.calls, result), old(n.value), service, reading, codec, absolute,
                 old(publisher.calls), publisher.answers(|old(publisher.calls)|))
    {
      if n == null {
        return Refused(EMPTY_BODY);
      }
      var verr := Validate(n.value, absolute);
      if verr.Some? {
        return Refused(verr.value);
      }
      var now := TruncateToMillis(reading.instant);
      if reading.id.NoId? {
        return Refused(Wrapped("ingest: generate notification_id", reading.id.cause));
      }
      var id := reading.id.text;
      n.value := n.value.(id := id);
      n.value := n.value.(createdAt := Some(now));
      n.value := n.value.(originatingService := service);
      var body := codec.marshal(n.value);
      if body.None? {
        return Refused(Wrapped("ingest: marshal notification", Opaque("proto: marshal")));
      }
      var err := publisher.Publish(PublishInput(body.value, id));
      if err.Some? {
        return Refused(err.value);
      }
      return Accepted(id, now);
    }
  }

  // --- What an effect means --------------------------------------------------------------------------------

  /** At most one call is added; it carries the drawn id and the stamped notification. */
  lemma AtMostOnePublish(
    e: Effect, n: Notification, service: string, reading: Reading, codec: Codec, absolute: UrlCheck,
    calls: seq<PublishInput>, answer: Option<Err>)
    requires IsEffect(e, n, service, reading, codec, absolute, calls, answer)
    ensures e.calls == calls || exists input :: e.calls == calls + [input]
    ensures e.calls != calls <==>
            && WellFormed(n, absolute) && reading.id.Id?
            && codec.marshal(Stamped(n, reading.id.text, TruncateToMillis(reading.instant), service)).Some?
    ensures e.result.Accepted? <==> e.calls != calls && answer.None?
    ensures e.calls != calls ==>
      && e.value.id == e.calls[|calls|].id == reading.id.text && e.value.originatingService == service
      && codec.marshal(e.value) == Some(e.calls[|calls|].body)
    ensures e.result.Accepted? ==> e.value.id == e.result.id && e.value.createdAt == Some(e.result.at)
  {
    if WellFormed(n, absolute) && reading.id.Id? {
      assert |e.calls| == |calls| + 1 || e.calls == calls;
    }
  }

  /** What the caller puts into the fields the server assigns is lost: it cannot change what is published. */
  lemma ServerFieldsIgnored(
    n: Notification, other: Notification, e: Effect, f: Effect, service: string, reading: Reading, codec: Codec,
    absolute: UrlCheck, calls: seq<PublishInput>, answer: Option<Err>)
    requires other == n.(id := other.id, createdAt := other.createdAt, originatingService := other.originatingService)
    requires IsEffect(e, n, service, reading, codec, absolute, calls, answer) && e.calls != calls
    requires IsEffect(f, other, service, reading, codec, absolute, calls, answer)
    ensures WellFormed(other, absolute) ==> f == e
    ensures other.createdAt == n.createdAt ==> f == e
  {
    if reading.id.Id? {
      var at := TruncateToMillis(reading.instant);
      assert Stamped(n, reading.id.text, at, service) == Stamped(other, reading.id.text, at, service);
    }
  }

  /**
   * What a valid notification turns into meets the schema itself if and only if it does not expire before the
   * assigned created_at: the caller's own created_at, set or not, does not matter.
   */
  lemma StampedWellFormedIff(n: Notification, id: string, at: Time, service: string, absolute: UrlCheck)
    requires WellFormed(n, absolute)
    ensures WellFormed(Stamped(n, id, at, service), absolute) <==> n.expiresAt.None? || at <= n.expiresAt.value
  {
  }

  /** Two ways a caller gets past the test with any expiry: no created_at, or one that is the expiry itself. */
  lemma AnyExpiryPasses(n: Notification, expiry: Time, absolute: UrlCheck)
    requires WellFormed(n, absolute)
    ensures WellFormed(n.(createdAt := None, expiresAt := Some(expiry)), absolute)
    ensures WellFormed(n.(createdAt := Some(expiry), expiresAt := Some(expiry)), absolute)
  {
  }
}
