/** `MetricsConnectionString.Parse`: a `key=value;key=value` string is read into
    a case-insensitive option dictionary and the metrics provider it names is
    chosen. */
module Metrics {
  import opened Common

  datatype MetricsKind = StatsD | Http | InfluxDB | Prometheus | Graphite

  /** The provider name each kind answers to (compared ignoring case). */
  function KindName(k: MetricsKind): string {
    match k
    case StatsD => "statsd"
    case Http => "http"
    case InfluxDB => "influxdb"
    case Prometheus => "prometheus"
    case Graphite => "graphite"
  }

  /** The option dictionary with `StringComparer.OrdinalIgnoreCase`: keyed by the
      lower-cased key. */
  type Options = map<string, string>

  /** What `Parse` returns: null for an empty string, a connection string of one
      kind (the Prometheus one is built without the options), or the message of
      the `InvalidOperationException` it throws. */
  datatype ParseOutcome =
    | NoConnectionString
    | Parsed(kind: MetricsKind, connectionString: string, options: Option<Options>)
    | Invalid(message: string)

  const MissingProviderMessage: string := "The metrics provider is required in the connection string."

  function UnknownProviderMessage(provider: string): string {
    "The metrics provider " + provider + " cannot be recoganized."
  }

  // ------------------------------------------------------------------
  // Segments and options

  /** The `;`-separated non-empty segments that contain `=`, in order. */
  function Segments(connectionString: string): (r: seq<string>)
    ensures forall k :: 0 <= k < |r| ==> '=' in r[k] && ';' !in r[k]
  {
    Filter(Split(connectionString, ';'))
  }

  function Filter(parts: seq<string>): (r: seq<string>)
    requires forall k :: 0 <= k < |parts| ==> ';' !in parts[k]
    ensures forall k :: 0 <= k < |r| ==> '=' in r[k] && ';' !in r[k]
    ensures forall s :: s in r <==> s in parts && '=' in s
  {
    if parts == [] then []
    else
      assert forall s :: s in parts <==> s == parts[0] || s in parts[1..];
      (if '=' in parts[0] then [parts[0]] else []) + Filter(parts[1..])
  }

  /** A segment split at its first `=` only: the value may hold further `=`. */
  function KeyValue(segment: string): (kv: (string, string))
    requires '=' in segment
    ensures '=' !in kv.0 && kv.0 + "=" + kv.1 == segment
  {
    SplitAtFirst(segment, '=')
  }

  /** The key/value pair of every segment, untrimmed. */
  function Pairs(segments: seq<string>): (r: seq<(string, string)>)
    requires forall k :: 0 <= k < |segments| ==> '=' in segments[k]
    ensures |r| == |segments|
    ensures forall k :: 0 <= k < |r| ==> r[k] == KeyValue(segments[k])
  {
    seq(|segments|, k requires 0 <= k < |segments| => KeyValue(segments[k]))
  }

  /** The entry one pair writes, if any: a blank value writes the key under
      the empty-string entry, a non-empty key with a value writes the value under
      the key (whatever its case), and a blank key with a value writes nothing. */
  function Effect(kv: (string, string)): Option<(string, string)> {
    var k, v := Trim(kv.0), Trim(kv.1);
    if v == [] then Some(([], k))
    else if k != [] then Some((ToLower(k), v))
    else None
  }

  function Effects(pairs: seq<(string, string)>): (r: seq<Option<(string, string)>>)
    ensures |r| == |pairs| && forall k :: 0 <= k < |r| ==> r[k] == Effect(pairs[k])
  {
    seq(|pairs|, k requires 0 <= k < |pairs| => Effect(pairs[k]))
  }

  function Apply(options: Options, e: Option<(string, string)>): Options {
    match e
    case None => options
    case Some((name, value)) => options[name := value]
  }

  function ApplyAll(writes: seq<Option<(string, string)>>): Options {
    if writes == [] then map[]
    else Apply(ApplyAll(writes[..|writes| - 1]), writes[|writes| - 1])
  }

  /** The dictionary after the loop has stored `pairs` in order. */
  function OptionsOf(pairs: seq<(string, string)>): Options {
    ApplyAll(Effects(pairs))
  }

  /** A reference for one entry, independent of any dictionary: the value of the
      last write to `name`, if there is one. */
  function LastWrite(writes: seq<Option<(string, string)>>, name: string): (r: Option<string>)
    ensures r.None? <==> forall i :: 0 <= i < |writes| ==> writes[i].None? || writes[i].value.0 != name
    ensures r.Some? ==>
              exists i :: 0 <= i < |writes| && writes[i] == Some((name, r.value))
                          && forall j :: i < j < |writes| ==> writes[j].None? || writes[j].value.0 != name
  {
    if writes == [] then None
    else
      var n := |writes| - 1;
      if writes[n].Some? && writes[n].value.0 == name then Some(writes[n].value.1)
      else
        var init := writes[..n];
        assert forall k :: 0 <= k < n ==> init[k] == writes[k];
        LastWrite(init, name)
  }

  /** The dictionary holds, under every name, exactly the value of the last pair
      writing that name: a later duplicate key, in any case, overwrites an
      earlier one, and a name no pair writes is absent. */
  lemma {:induction false} LastWriterWins(pairs: seq<(string, string)>, name: string)
    ensures name in OptionsOf(pairs) <==> LastWrite(Effects(pairs), name).Some?
    ensures name in OptionsOf(pairs) ==> OptionsOf(pairs)[name] == LastWrite(Effects(pairs), name).value
  {
    LastWriteIsApplied(Effects(pairs), name);
  }

  lemma {:induction false} LastWriteIsApplied(writes: seq<Option<(string, string)>>, name: string)
    ensures name in ApplyAll(writes) <==> LastWrite(writes, name).Some?
    ensures name in ApplyAll(writes) ==> ApplyAll(writes)[name] == LastWrite(writes, name).value
    decreases |writes|
  {
    if writes != [] {
      LastWriteIsApplied(writes[..|writes| - 1], name);
    }
  }

  /** The loop's step: storing one more pair. */
  lemma OptionsStep(pairs: seq<(string, string)>, i: nat)
    requires i < |pairs|
    ensures OptionsOf(pairs[..i + 1]) == Apply(OptionsOf(pairs[..i]), Effect(pairs[i]))
  {
    assert Effects(pairs[..i + 1])[..i] == Effects(pairs[..i]);
  }

  /** A segment whose value is blank is not lost: its key is kept under the
      empty-string entry, while a blank key with a value is dropped. */
  lemma BlankPartsOfAPair(options: Options, kv: (string, string))
    ensures var stored := Apply(options, Effect(kv));
            Trim(kv.1) == [] ==> [] in stored && stored[[]] == Trim(kv.0)
    ensures Trim(kv.1) != [] && Trim(kv.0) == [] ==> Apply(options, Effect(kv)) == options
  {
  }

  // ------------------------------------------------------------------
  // Provider dispatch

  /** `options.TryGetValue("provider") || options.TryGetValue("reporter")`. */
  function ChosenProvider(options: Options): (r: Option<string>)
    ensures r.None? <==> "provider" !in options && "reporter" !in options
    ensures "provider" in options ==> r == Some(options["provider"])
    ensures "provider" !in options && "reporter" in options ==> r == Some(options["reporter"])
  {
    if "provider" in options then Some(options["provider"])
    else if "reporter" in options then Some(options["reporter"])
    else None
  }

  lemma {:induction false} ToLowerOfLower(s: string)
    requires forall i :: 0 <= i < |s| ==> !IsUpper(s[i])
    ensures ToLower(s) == s
  {
  }

  /** The five `String.Equals(..., OrdinalIgnoreCase)` tests, in source order. */
  function KindOf(provider: string): (r: Option<MetricsKind>)
    ensures r.Some? ==> EqualsIgnoreCase(provider, KindName(r.value))
    ensures r.None? ==> forall k: MetricsKind :: !EqualsIgnoreCase(provider, KindName(k))
  {
    var p := ToLower(provider);
    ToLowerOfLower("statsd");
    ToLowerOfLower("http");
    ToLowerOfLower("influxdb");
    ToLowerOfLower("prometheus");
    ToLowerOfLower("graphite");
    if p == "statsd" then Some(StatsD)
    else if p == "http" then Some(Http)
    else if p == "influxdb" then Some(InfluxDB)
    else if p == "prometheus" then Some(Prometheus)
    else if p == "graphite" then Some(Graphite)
    else None
  }

  /** Every kind is recognised by its own name, in any case. */
  lemma KindNamesRoundTrip(k: MetricsKind, spelling: string)
    requires EqualsIgnoreCase(spelling, KindName(k))
    ensures KindOf(spelling) == Some(k)
  {
    ToLowerOfLower("statsd");
    ToLowerOfLower("http");
    ToLowerOfLower("influxdb");
    ToLowerOfLower("prometheus");
    ToLowerOfLower("graphite");
  }

  /** Everything after the options are built. */
  function Dispatch(connectionString: string, options: Options): ParseOutcome {
    match ChosenProvider(options)
    case None => Invalid(MissingProviderMessage)
    case Some(p) =>
      match KindOf(p)
      case None => Invalid(UnknownProviderMessage(p))
      case Some(Prometheus) => Parsed(Prometheus, connectionString, None)
      case Some(k) => Parsed(k, connectionString, Some(options))
  }

  /** `Parse` as a whole. */
  function ParseOf(connectionString: string): ParseOutcome {
    if connectionString == [] then NoConnectionString
    else Dispatch(connectionString, OptionsOf(Pairs(Segments(connectionString))))
  }

  /** A `provider` entry decides the outcome alone: whatever `reporter` holds,
      or whether it is there at all, changes nothing. */
  lemma ProviderTakesPrecedence(connectionString: string, options: Options, reporter: string)
    requires "provider" in options
    ensures var changed := Dispatch(connectionString, options["reporter" := reporter]);
            && changed.Parsed? == Dispatch(connectionString, options).Parsed?
            && (changed.Parsed? ==> changed.kind == Dispatch(connectionString, options).kind)
            && (changed.Invalid? ==> changed == Dispatch(connectionString, options))
    ensures var dropped := Dispatch(connectionString, options - {"reporter"});
            && dropped.Parsed? == Dispatch(connectionString, options).Parsed?
            && (dropped.Parsed? ==> dropped.kind == Dispatch(connectionString, options).kind)
            && (dropped.Invalid? ==> dropped == Dispatch(connectionString, options))
  {
    assert "provider" != "reporter";
  }

  /** The outcome is a parsed connection string of kind `k` exactly when the
      chosen provider names `k`; otherwise the two messages separate a missing
      provider from an unknown one. */
  lemma DispatchOutcomes(connectionString: string, options: Options)
    ensures Dispatch(connectionString, options).Parsed? <==>
              ChosenProvider(options).Some? && KindOf(ChosenProvider(options).value).Some?
    ensures Dispatch(connectionString, options).Parsed? ==>
              EqualsIgnoreCase(ChosenProvider(options).value, KindName(Dispatch(connectionString, options).kind))
              && (Dispatch(connectionString, options).options.None? <==> Dispatch(connectionString, options).kind == Prometheus)
    ensures Dispatch(connectionString, options) == Invalid(MissingProviderMessage) <==>
              "provider" !in options && "reporter" !in options
    ensures ChosenProvider(options).Some? && KindOf(ChosenProvider(options).value).None? ==>
              Dispatch(connectionString, options) == Invalid(UnknownProviderMessage(ChosenProvider(options).value))
  {
    if ChosenProvider(options).Some? {
      var p := ChosenProvider(options).value;
      var u := UnknownProviderMessage(p);
      assert u[|u| - 2] == 'd';
      assert MissingProviderMessage[|MissingProviderMessage| - 2] == 'g';
    }
  }

  /** The `foreach` of `Parse`: each pair is trimmed and stored in order. */
  method StoreOptions(pairs: seq<(string, string)>) returns (options: Options)
    ensures options == OptionsOf(pairs)
  {
    options := map[];
    for i := 0 to |pairs|
      invariant options == OptionsOf(pairs[..i])
    {
      OptionsStep(pairs, i);
      var optionKey, optionValue := Trim(pairs[i].0), Trim(pairs[i].1);
      if optionValue == [] {
        options := options[[] := optionKey];
      } else if optionKey != [] {
        options := options[ToLower(optionKey) := optionValue];
      }
    }
    assert pairs[..|pairs|] == pairs;
  }

  /** `Parse`: the loop fills the dictionary, then the provider is dispatched. */
  method Parse(connectionString: string) returns (r: ParseOutcome)
    ensures r == ParseOf(connectionString)
    ensures r == NoConnectionString <==> connectionString == []
  {
    if connectionString == [] {
      return NoConnectionString;
    }
    var options := StoreOptions(Pairs(Segments(connectionString)));
    r := Dispatch(connectionString, options);
  }
}
