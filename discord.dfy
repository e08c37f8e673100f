/** The Discord error notifier: the level colours and icons, the default
    filling of error details, the context fields of an embed with their
    truncation rules, and the layout of the error embed. Sending the message
    is not part of this module. */
module Discord {
  import opened Wrappers

  const ErrorColor := 0xFF0000
  const WarningColor := 0xFFA500
  const InfoColor := 0x0099FF
  const SuccessColor := 0x00FF00
  const DebugColor := 0x808080

  datatype LevelConfig = LevelConfig(color: int, icon: string)

  /** `getLevelConfig`: the five levels, and the info settings for any other
      value. */
  function GetLevelConfig(level: string): (r: LevelConfig)
    ensures level == "error" ==> r == LevelConfig(ErrorColor, "🚨")
    ensures level == "warning" ==> r == LevelConfig(WarningColor, "⚠️")
    ensures level == "success" ==> r == LevelConfig(SuccessColor, "✅")
    ensures level == "debug" ==> r == LevelConfig(DebugColor, "🔧")
    ensures level !in {"error", "warning", "success", "debug"} ==> r == LevelConfig(InfoColor, "ℹ️")
  {
    match level
    case "error" => LevelConfig(ErrorColor, "🚨")
    case "warning" => LevelConfig(WarningColor, "⚠️")
    case "info" => LevelConfig(InfoColor, "ℹ️")
    case "success" => LevelConfig(SuccessColor, "✅")
    case "debug" => LevelConfig(DebugColor, "🔧")
    case _ => LevelConfig(InfoColor, "ℹ️")
  }

  /** The five levels have five different colours, and a level outside them
      looks exactly like info. */
  lemma LevelColorsDistinct(a: string, b: string)
    requires a in {"error", "warning", "info", "success", "debug"}
    requires b in {"error", "warning", "info", "success", "debug"}
    ensures GetLevelConfig(a).color == GetLevelConfig(b).color <==> a == b
    ensures GetLevelConfig(a).icon == GetLevelConfig(b).icon <==> a == b
  {
  }

  /** The value of `error.cause` when there is one: whether it is truthy, and
      `String(cause)`. */
  datatype Cause = Cause(truthy: bool, asString: string)

  /** An `Error`; `stack` and `cause` may be absent. */
  datatype ErrorValue = ErrorValue(name: string, message: string, stack: Option<string>, cause: Option<Cause>)

  datatype ErrorDetails = ErrorDetails(name: string, message: string, stack: string, cause: Option<string>)

  const StackLimit: nat := 1000

  /** `extractErrorDetails`. */
  function ExtractErrorDetails(error: ErrorValue): (r: ErrorDetails)
    ensures error.name != "" ==> r.name == error.name
    ensures error.name == "" ==> r.name == "Unknown Error"
    ensures error.message != "" ==> r.message == error.message
    ensures error.message == "" ==> r.message == "No error message available"
    ensures error.stack.Some? && error.stack.value != "" ==>
      r.stack == error.stack.value[..Min(StackLimit, |error.stack.value|)]
    ensures error.stack.None? || error.stack.value == "" ==> r.stack == "No stack trace available"
    ensures r.cause.Some? <==> error.cause.Some? && error.cause.value.truthy
    ensures r.cause.Some? ==> r.cause.value == error.cause.value.asString
    ensures |r.stack| <= StackLimit
    ensures r.name != "" && r.message != "" && r.stack != ""
  {
    var stack := if error.stack.Some? then error.stack.value[..Min(StackLimit, |error.stack.value|)] else "";
    ErrorDetails(
      if error.name != "" then error.name else "Unknown Error",
      if error.message != "" then error.message else "No error message available",
      if stack != "" then stack else "No stack trace available",
      if error.cause.Some? && error.cause.value.truthy then Some(error.cause.value.asString) else None)
  }

  /** `NotificationContext`; `metadata` keeps only what the fields use, its
      keys with their values. */
  datatype NotificationContext = NotificationContext(
    url: Option<string>,
    httpMethod: Option<string>,
    headers: Option<map<string, string>>,
    userAgent: Option<string>,
    ip: Option<string>,
    functionName: Option<string>,
    metadata: Option<map<string, string>>,
    environment: Option<string>,
    timestamp: Option<string>,
    notificationType: Option<string>,
    userId: Option<string>)

  datatype Field = Field(name: string, value: string, inline: bool)

  const EnvironmentName := "🌍 環境"
  const UrlName := "🔗 URL"
  const MethodName := "📡 メソッド"
  const FunctionName := "⚙️ 関数"
  const IpName := "🌐 IP"
  const UserAgentName := "🖥️ User Agent"
  const MetadataName := "📊 メタデータ"

  const UrlLimit: nat := 100
  const UserAgentLimit: nat := 200
  const MetadataLimit: nat := 500

  /** The order the context fields are emitted in. */
  const FieldOrder := [EnvironmentName, UrlName, MethodName, FunctionName, IpName, UserAgentName, MetadataName]

  /** A string entry is used when it is set and non-empty (truthy). */
  predicate Present(entry: Option<string>) {
    entry.Some? && entry.value != ""
  }

  /** `s.length > n ? s.slice(0, n) + '...' : s`. */
  function Truncate(s: string, n: nat): (r: string)
    ensures |r| <= n + 3
    ensures |s| <= n ==> r == s
    ensures |s| > n ==> |r| == n + 3 && r[..n] == s[..n] && r[n..] == "..."
  {
    if |s| > n then s[..n] + "..." else s
  }

  /** The metadata field is emitted only for metadata with at least one key. */
  predicate HasMetadata(c: NotificationContext) {
    c.metadata.Some? && |c.metadata.value| > 0
  }

  /** `fields.push(f)` when `condition` holds. */
  function Push(fields: seq<Field>, condition: bool, f: Field): seq<Field> {
    if condition then fields + [f] else fields
  }

  /** Whether the entry of rank `k` produces a field. */
  predicate EntryPresent(c: NotificationContext, k: nat) {
    if k == 0 then Present(c.environment)
    else if k == 1 then Present(c.url)
    else if k == 2 then Present(c.httpMethod)
    else if k == 3 then Present(c.functionName)
    else if k == 4 then Present(c.ip)
    else if k == 5 then Present(c.userAgent)
    else HasMetadata(c)
  }

  /** The field of the entry of rank `k`, with `stringify` standing for
      `JSON.stringify(metadata, null, 2)`. */
  function EntryField(c: NotificationContext, stringify: map<string, string> -> string, k: nat): Field {
    if k == 0 then Field(EnvironmentName, c.environment.GetOr(""), true)
    else if k == 1 then Field(UrlName, Truncate(c.url.GetOr(""), UrlLimit), false)
    else if k == 2 then Field(MethodName, c.httpMethod.GetOr(""), true)
    else if k == 3 then Field(FunctionName, c.functionName.GetOr(""), true)
    else if k == 4 then Field(IpName, c.ip.GetOr(""), true)
    else if k == 5 then Field(UserAgentName, Truncate(c.userAgent.GetOr(""), UserAgentLimit), false)
    else Field(MetadataName, Truncate(stringify(c.metadata.GetOr(map[])), MetadataLimit), false)
  }

  /** The fields after the pushes for the first `k` entries. */
  function FieldsUpTo(c: NotificationContext, stringify: map<string, string> -> string, k: nat): seq<Field>
    requires k <= |FieldOrder|
  {
    if k == 0 then [] else Push(FieldsUpTo(c, stringify, k - 1), EntryPresent(c, k - 1), EntryField(c, stringify, k - 1))
  }

  /** The fields `buildContextFields` returns. */
  function ContextFields(c: NotificationContext, stringify: map<string, string> -> string): seq<Field> {
    FieldsUpTo(c, stringify, |FieldOrder|)
  }

  /** `buildContextFields`: one push per present entry. */
  method BuildContextFields(context: NotificationContext, stringify: map<string, string> -> string)
    returns (fields: seq<Field>)
    ensures fields == ContextFields(context, stringify)
  {
    fields := [];
    if Present(context.environment) {
      fields := fields + [Field(EnvironmentName, context.environment.value, true)];
    }
    assert fields == FieldsUpTo(context, stringify, 1);
    if Present(context.url) {
      var url := context.url.value;
      fields := fields + [Field(UrlName, if |url| > UrlLimit then url[..UrlLimit] + "..." else url, false)];
    }
    assert fields == FieldsUpTo(context, stringify, 2);
    if Present(context.httpMethod) {
      fields := fields + [Field(MethodName, context.httpMethod.value, true)];
    }
    assert fields == FieldsUpTo(context, stringify, 3);
    if Present(context.functionName) {
      fields := fields + [Field(FunctionName, context.functionName.value, true)];
    }
    assert fields == FieldsUpTo(context, stringify, 4);
    if Present(context.ip) {
      fields := fields + [Field(IpName, context.ip.value, true)];
    }
    assert fields == FieldsUpTo(context, stringify, 5);
    if Present(context.userAgent) {
      var ua := context.userAgent.value;
      fields := fields + [Field(UserAgentName, if |ua| > UserAgentLimit then ua[..UserAgentLimit] + "..." else ua, false)];
    }
    assert fields == FieldsUpTo(context, stringify, 6);
    if context.metadata.Some? && |context.metadata.value| > 0 {
      var text := stringify(context.metadata.value);
      fields := fields + [Field(MetadataName, if |text| > MetadataLimit then text[..MetadataLimit] + "..." else text, false)];
    }
  }

  /** The position of a field name in the emission order. */
  function Rank(name: string): int {
    if name == EnvironmentName then 0
    else if name == UrlName then 1
    else if name == MethodName then 2
    else if name == FunctionName then 3
    else if name == IpName then 4
    else if name == UserAgentName then 5
    else if name == MetadataName then 6
    else 7
  }

  predicate HasField(fields: seq<Field>, name: string) {
    exists i :: 0 <= i < |fields| && fields[i].name == name
  }

  /** A field as the builder makes it: inline exactly for environment,
      method, function and IP, with a truncated value bounded. */
  predicate FieldOk(f: Field) {
    && f.name in FieldOrder
    && (f.inline <==> f.name in {EnvironmentName, MethodName, FunctionName, IpName})
    && (f.name == UrlName ==> |f.value| <= UrlLimit + 3)
    && (f.name == UserAgentName ==> |f.value| <= UserAgentLimit + 3)
    && (f.name == MetadataName ==> |f.value| <= MetadataLimit + 3)
  }

  /** The fields pushed before the entry of rank `k`: at most `k` of them,
      each well made, in strictly increasing rank below `k`. */
  predicate BuiltBefore(fields: seq<Field>, k: int) {
    && |fields| <= k
    && (forall i :: 0 <= i < |fields| ==> FieldOk(fields[i]) && Rank(fields[i].name) < k)
    && (forall i, j :: 0 <= i < j < |fields| ==> Rank(fields[i].name) < Rank(fields[j].name))
  }

  lemma PushKeepsBuilt(fields: seq<Field>, k: int, condition: bool, f: Field)
    requires BuiltBefore(fields, k)
    requires FieldOk(f) && Rank(f.name) == k
    ensures BuiltBefore(Push(fields, condition, f), k + 1)
    ensures HasField(Push(fields, condition, f), f.name) <==> condition
    ensures forall name :: name != f.name ==>
      (HasField(Push(fields, condition, f), name) <==> HasField(fields, name))
  {
    var r := Push(fields, condition, f);
    if condition {
      assert r[|fields|] == f;
      forall name | name != f.name && HasField(r, name) ensures HasField(fields, name) {
        var i :| 0 <= i < |r| && r[i].name == name;
        assert r[i] == fields[i];
      }
      forall name | HasField(fields, name) ensures HasField(r, name) {
        var i :| 0 <= i < |fields| && fields[i].name == name;
        assert r[i] == fields[i];
      }
    }
    assert !HasField(fields, f.name);
  }

  lemma {:induction false} FieldsUpToBuilt(c: NotificationContext, stringify: map<string, string> -> string, k: nat)
    requires k <= |FieldOrder|
    ensures BuiltBefore(FieldsUpTo(c, stringify, k), k)
    ensures forall r: nat :: r < |FieldOrder| ==>
      (HasField(FieldsUpTo(c, stringify, k), FieldOrder[r]) <==> r < k && EntryPresent(c, r))
    ensures forall i :: 0 <= i < |FieldsUpTo(c, stringify, k)| ==>
      0 <= Rank(FieldsUpTo(c, stringify, k)[i].name)
      && FieldsUpTo(c, stringify, k)[i] == EntryField(c, stringify, Rank(FieldsUpTo(c, stringify, k)[i].name))
  {
    if k > 0 {
      var f := EntryField(c, stringify, k - 1);
      var before := FieldsUpTo(c, stringify, k - 1);
      FieldsUpToBuilt(c, stringify, k - 1);
      EntryFieldOk(c, stringify, k - 1);
      PushKeepsBuilt(before, k - 1, EntryPresent(c, k - 1), f);
      var after := FieldsUpTo(c, stringify, k);
      forall i | 0 <= i < |after|
        ensures 0 <= Rank(after[i].name) && after[i] == EntryField(c, stringify, Rank(after[i].name))
      {
        if i < |before| {
          assert after[i] == before[i];
        }
      }
    }
  }

  lemma EntryFieldOk(c: NotificationContext, stringify: map<string, string> -> string, k: nat)
    requires k < |FieldOrder|
    ensures EntryField(c, stringify, k).name == FieldOrder[k]
    ensures Rank(EntryField(c, stringify, k).name) == k
    ensures FieldOk(EntryField(c, stringify, k))
  {
  }

  /** At most one field per entry, in the fixed order, each well made, and
      a field exactly for each present entry. */
  lemma ContextFieldsShape(c: NotificationContext, stringify: map<string, string> -> string)
    ensures |ContextFields(c, stringify)| <= |FieldOrder|
    ensures forall i, j :: 0 <= i < j < |ContextFields(c, stringify)| ==>
      Rank(ContextFields(c, stringify)[i].name) < Rank(ContextFields(c, stringify)[j].name)
    ensures forall i :: 0 <= i < |ContextFields(c, stringify)| ==> FieldOk(ContextFields(c, stringify)[i])
    // each field is the one its entry makes, truncation included
    ensures forall i :: 0 <= i < |ContextFields(c, stringify)| ==>
      0 <= Rank(ContextFields(c, stringify)[i].name)
      && ContextFields(c, stringify)[i] == EntryField(c, stringify, Rank(ContextFields(c, stringify)[i].name))
    ensures HasField(ContextFields(c, stringify), EnvironmentName) <==> Present(c.environment)
    ensures HasField(ContextFields(c, stringify), UrlName) <==> Present(c.url)
    ensures HasField(ContextFields(c, stringify), MethodName) <==> Present(c.httpMethod)
    ensures HasField(ContextFields(c, stringify), FunctionName) <==> Present(c.functionName)
    ensures HasField(ContextFields(c, stringify), IpName) <==> Present(c.ip)
    ensures HasField(ContextFields(c, stringify), UserAgentName) <==> Present(c.userAgent)
    ensures HasField(ContextFields(c, stringify), MetadataName) <==> HasMetadata(c)
  {
    FieldsUpToBuilt(c, stringify, |FieldOrder|);
    assert EnvironmentName == FieldOrder[0] && UrlName == FieldOrder[1] && MethodName == FieldOrder[2];
    assert FunctionName == FieldOrder[3] && IpName == FieldOrder[4] && UserAgentName == FieldOrder[5];
    assert MetadataName == FieldOrder[6];
  }

  /** The context with the entries that no field uses set aside. */
  function UsedEntries(c: NotificationContext): NotificationContext {
    c.(headers := None, userId := None, notificationType := None, timestamp := None)
  }

  lemma {:induction false} FieldsUpToUsedEntries(c: NotificationContext, stringify: map<string, string> -> string, k: nat)
    requires k <= |FieldOrder|
    ensures FieldsUpTo(c, stringify, k) == FieldsUpTo(UsedEntries(c), stringify, k)
  {
    if k > 0 {
      FieldsUpToUsedEntries(c, stringify, k - 1);
    }
  }

  /** The headers, user id, type and timestamp entries never change the
      fields. */
  lemma ContextFieldsIgnoreUnusedEntries(c: NotificationContext, d: NotificationContext,
                                         stringify: map<string, string> -> string)
    requires UsedEntries(c) == UsedEntries(d)
    ensures ContextFields(c, stringify) == ContextFields(d, stringify)
  {
    FieldsUpToUsedEntries(c, stringify, |FieldOrder|);
    FieldsUpToUsedEntries(d, stringify, |FieldOrder|);
  }

  /** The error embed of `sendDiscordNotification`, with `formatTime`
      standing for the Asia/Tokyo `toLocaleString` of a timestamp and `now`
      for `new Date().toISOString()`. */
  datatype Embed = Embed(title: string, description: string, color: int, fields: seq<Field>,
                         timestamp: string, footer: string)

  function ErrorEmbed(error: ErrorValue, context: NotificationContext, now: string,
                      formatTime: string -> string, stringify: map<string, string> -> string): (e: Embed)
    ensures e.color == GetLevelConfig("error").color
    ensures e.title == GetLevelConfig("error").icon + " エラーが発生しました"
    ensures e.description == "**" + ExtractErrorDetails(error).name + "**\n" + ExtractErrorDetails(error).message
    ensures e.footer == "Tech Blog Error Monitor"
    ensures e.timestamp == if Present(context.timestamp) then context.timestamp.value else now
    ensures |e.fields| == |ContextFields(context, stringify)| + 2
    ensures e.fields[0] == Field("📅 発生時刻", formatTime(e.timestamp), true)
    ensures e.fields[1..|e.fields| - 1] == ContextFields(context, stringify)
    ensures e.fields[|e.fields| - 1] ==
      Field("📋 スタックトレース", "```\n" + ExtractErrorDetails(error).stack + "```", false)
  {
    var details := ExtractErrorDetails(error);
    var level := GetLevelConfig("error");
    var timestamp := if Present(context.timestamp) then context.timestamp.value else now;
    var fields := [Field("📅 発生時刻", formatTime(timestamp), true)]
      + ContextFields(context, stringify)
      + [Field("📋 スタックトレース", "```\n" + details.stack + "```", false)];
    Embed(level.icon + " エラーが発生しました",
          "**" + details.name + "**\n" + details.message,
          level.color, fields, timestamp, "Tech Blog Error Monitor")
  }
}
