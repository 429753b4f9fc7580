/**
 * The pop-up that shows the current error, warning or notice: the message it
 * picks out of whatever value it was given, the optional details text, the
 * icon and colour for the severity, and the rule that a click elsewhere on
 * the page does not close it. `JSON.stringify` and the printing of
 * non-integral numbers are parameters.
 */
module ErrorPopup {
  import opened Wrappers
  import opened Js
  import opened JsValue

  const UnknownErrorMessage := "An unknown error occurred"
  const UnexpectedErrorMessage := "An unexpected error occurred"

  /** `error.response?.data?.<key>` */
  function DataField(error: Value, key: string): Value {
    Get(Get(Get(error, "response"), "data"), key)
  }

  /** `formatErrorMessage`: the first truthy candidate, in the order the code tests them. */
  function FormatErrorMessage(error: Value, fraction: real -> string): (r: Value)
    ensures Truthy(r)
    ensures !Truthy(error) ==> r == Str(UnknownErrorMessage)
    ensures Truthy(error) && error.Str? ==> r == error
  {
    var response := Get(error, "response");
    if !Truthy(error) then Str(UnknownErrorMessage)
    else if error.Str? then error
    else if Truthy(Get(error, "message")) then Get(error, "message")
    else if Truthy(Get(error, "detail")) then Get(error, "detail")
    else if Truthy(Get(error, "error")) then Get(error, "error")
    else if Truthy(DataField(error, "detail")) then DataField(error, "detail")
    else if Truthy(DataField(error, "message")) then DataField(error, "message")
    else if Truthy(Get(response, "statusText")) then
      Str(Text(Get(response, "status"), fraction) + ": " + Text(Get(response, "statusText"), fraction))
    else Str(UnexpectedErrorMessage)
  }

  /** The fields a non-string error's message is taken from, highest precedence first. */
  function MessageCandidates(error: Value): seq<Value> {
    [Get(error, "message"), Get(error, "detail"), Get(error, "error"), DataField(error, "detail"), DataField(error, "message")]
  }

  /** The position of the first truthy value of `vs`, or `|vs|` when there is none. */
  function FirstTruthy(vs: seq<Value>): (i: nat)
    ensures i <= |vs|
    ensures forall j :: 0 <= j < i ==> !Truthy(vs[j])
    ensures i < |vs| ==> Truthy(vs[i])
  {
    if vs == [] || Truthy(vs[0]) then 0
    else
      assert forall j :: 1 <= j < |vs| ==> vs[1..][j - 1] == vs[j];
      1 + FirstTruthy(vs[1..])
  }

  /**
   * The precedence of `formatErrorMessage` for an object (or any non-string
   * truthy value): the first truthy candidate wins, and only when there is
   * none do the status line, and then the fixed fallback, appear.
   */
  lemma MessagePrecedence(error: Value, fraction: real -> string)
    requires Truthy(error) && !error.Str?
    ensures FirstTruthy(MessageCandidates(error)) < |MessageCandidates(error)| ==>
      FormatErrorMessage(error, fraction) == MessageCandidates(error)[FirstTruthy(MessageCandidates(error))]
    ensures FirstTruthy(MessageCandidates(error)) == |MessageCandidates(error)| && !Truthy(Get(Get(error, "response"), "statusText")) ==>
      FormatErrorMessage(error, fraction) == Str(UnexpectedErrorMessage)
  {
    var cs := MessageCandidates(error);
    var i := FirstTruthy(cs);
    assert cs[0] == Get(error, "message") && cs[1] == Get(error, "detail") && cs[2] == Get(error, "error");
    assert cs[3] == DataField(error, "detail") && cs[4] == DataField(error, "message");
  }

  /** What `formatErrorDetails` produces; `Throws` is the TypeError of a non-string `config.method`. */
  datatype Details = NoDetails | Shown(text: string) | Throws

  predicate Omitted(key: string) {
    key == "detail" || key == "message"
  }

  function DataLine(p: Prop, stringify: Value -> string): string {
    p.key + ": " + stringify(p.value)
  }

  /** One line per entry whose key is neither `detail` nor `message`, in entry order. */
  function DataLines(entries: seq<Prop>, stringify: Value -> string): seq<string> {
    if entries == [] then []
    else
      var last := entries[|entries| - 1];
      DataLines(entries[..|entries| - 1], stringify) + if Omitted(last.key) then [] else [DataLine(last, stringify)]
  }

  /**
   * The data lines leave out exactly the `detail` and `message` entries:
   * there are none only when every entry is one of those, and every line
   * renders some other entry.
   */
  lemma {:induction false} DataLinesSkipMessageKeys(entries: seq<Prop>, stringify: Value -> string)
    ensures |DataLines(entries, stringify)| <= |entries|
    ensures DataLines(entries, stringify) == [] <==> forall i :: 0 <= i < |entries| ==> Omitted(entries[i].key)
    ensures forall l :: l in DataLines(entries, stringify) ==>
      exists i :: 0 <= i < |entries| && !Omitted(entries[i].key) && l == DataLine(entries[i], stringify)
  {
    if entries != [] {
      var init, last := entries[..|entries| - 1], entries[|entries| - 1];
      DataLinesSkipMessageKeys(init, stringify);
      assert forall i :: 0 <= i < |init| ==> init[i] == entries[i];
    }
  }

  /** The entries of `error.response.data` when it is a truthy object, otherwise none. */
  function DataEntries(error: Value): seq<Prop> {
    var data := Get(Get(error, "response"), "data");
    if Truthy(data) && data.Obj? then Entries(data.props) else []
  }

  /** The lines before the data lines: status and status text, each when truthy. */
  function HeadLines(error: Value, fraction: real -> string): seq<string> {
    var response := Get(error, "response");
    var status, statusText := Get(response, "status"), Get(response, "statusText");
    (if Truthy(status) then ["Status: " + Text(status, fraction)] else [])
    + (if Truthy(statusText) then ["Status Text: " + Text(statusText, fraction)] else [])
  }

  /** The URL line, when `config.url` is truthy. */
  function UrlLines(error: Value, fraction: real -> string): seq<string> {
    var url := Get(Get(error, "config"), "url");
    if Truthy(url) then ["URL: " + Text(url, fraction)] else []
  }

  /** The method line, when `config.method` is a non-empty string. */
  function MethodLines(error: Value): seq<string> {
    var verb := Get(Get(error, "config"), "method");
    if verb.Str? && Truthy(verb) then ["Method: " + UpperAscii(verb.s)] else []
  }

  /** Each line followed by a newline. */
  function Joined(lines: seq<string>): string {
    if lines == [] then "" else Joined(lines[..|lines| - 1]) + lines[|lines| - 1] + "\n"
  }

  /** The specification of `formatErrorDetails`. */
  function DetailsOf(error: Value, showDetails: bool, fraction: real -> string, stringify: Value -> string): Details {
    var verb := Get(Get(error, "config"), "method");
    if !Truthy(error) || !showDetails then NoDetails
    else if Truthy(verb) && !verb.Str? then Throws
    else Shown(Trim(Joined(HeadLines(error, fraction) + DataLines(DataEntries(error), stringify)
                           + UrlLines(error, fraction) + MethodLines(error))))
  }

  lemma {:induction false} JoinedAppend(a: seq<string>, b: seq<string>)
    ensures Joined(a + b) == Joined(a) + Joined(b)
    decreases |b|
  {
    if b == [] {
      assert a + b == a;
    } else {
      var init := b[..|b| - 1];
      JoinedAppend(a, init);
      assert (a + b)[..|a + b| - 1] == a + init;
    }
  }

  /** One more pass of the loop over the data entries. */
  lemma DataLinesStep(entries: seq<Prop>, i: nat, stringify: Value -> string, piece: string)
    requires i < |entries|
    requires piece == if Omitted(entries[i].key) then "" else DataLine(entries[i], stringify) + "\n"
    ensures Joined(DataLines(entries[..i + 1], stringify)) == Joined(DataLines(entries[..i], stringify)) + piece
  {
    var step := if Omitted(entries[i].key) then [] else [DataLine(entries[i], stringify)];
    assert entries[..i + 1][..i] == entries[..i];
    JoinedAppend(DataLines(entries[..i], stringify), step);
  }

  /** The `forEach` over the data entries, appending one line per kept entry. */
  method AppendDataLines(details0: string, entries: seq<Prop>, stringify: Value -> string) returns (details: string)
    ensures details == details0 + Joined(DataLines(entries, stringify))
  {
    details := details0;
    var i := 0;
    while i < |entries|
      invariant 0 <= i <= |entries|
      invariant details == details0 + Joined(DataLines(entries[..i], stringify))
    {
      ghost var before := Joined(DataLines(entries[..i], stringify));
      var p := entries[i];
      if Omitted(p.key) {
        DataLinesStep(entries, i, stringify, "");
        assert before + "" == before;
      } else {
        var line := DataLine(p, stringify) + "\n";
        DataLinesStep(entries, i, stringify, line);
        assert details + line == details0 + (before + line);
        details := details + line;
      }
      i := i + 1;
    }
    assert entries[..i] == entries;
  }

  /**
   * `formatErrorDetails`: the details text is built line by line, the data
   * entries in a loop, and trimmed at the end.
   */
  method FormatErrorDetails(error: Value, showDetails: bool, fraction: real -> string, stringify: Value -> string)
    returns (d: Details)
    ensures d == DetailsOf(error, showDetails, fraction, stringify)
  {
    if !Truthy(error) || !showDetails {
      return NoDetails;
    }
    var head := HeadLines(error, fraction);
    var entries := DataEntries(error);
    var details := AppendDataLines(Joined(head), entries, stringify);
    var lines := head + DataLines(entries, stringify);
    JoinedAppend(head, DataLines(entries, stringify));
    assert details == Joined(lines);
    var url := UrlLines(error, fraction);
    JoinedAppend(lines, url);
    details := details + Joined(url);
    assert details == Joined(lines + url);
    var verb := Get(Get(error, "config"), "method");
    if Truthy(verb) && !verb.Str? {
      return Throws;
    }
    var last := MethodLines(error);
    JoinedAppend(lines + url, last);
    details := details + Joined(last);
    assert details == Joined(lines + url + last);
    d := Shown(Trim(details));
  }

  /** A string error has no status, data, URL or method, so its details text is empty. */
  lemma StringErrorHasEmptyDetails(s: string, fraction: real -> string, stringify: Value -> string)
    requires s != ""
    ensures DetailsOf(Str(s), true, fraction, stringify) == Shown("")
  {
    assert HeadLines(Str(s), fraction) == [] && DataEntries(Str(s)) == [];
    assert DataLines([], stringify) == [];
  }

  datatype Icon = SuccessIcon | WarningIcon | InfoIcon | ErrorIcon

  function SeverityIcon(severity: string): (i: Icon)
    ensures i == ErrorIcon <==> severity != "success" && severity != "warning" && severity != "info"
  {
    if severity == "success" then SuccessIcon
    else if severity == "warning" then WarningIcon
    else if severity == "info" then InfoIcon
    else ErrorIcon
  }

  function SeverityColor(severity: string): (c: string)
    ensures severity != "success" && severity != "warning" && severity != "info" ==> c == "#d32f2f"
  {
    if severity == "success" then "#2e7d32"
    else if severity == "warning" then "#ed6c02"
    else if severity == "info" then "#0288d1"
    else "#d32f2f"
  }

  /** The colour of each icon in MUI's default palette. */
  function IconColor(i: Icon): string {
    match i
    case SuccessIcon => "#2e7d32"
    case WarningIcon => "#ed6c02"
    case InfoIcon => "#0288d1"
    case ErrorIcon => "#d32f2f"
  }

  /** The icon and the colour always agree, so every severity, known or not, looks consistent. */
  lemma IconAndColorAgree(severity: string)
    ensures SeverityColor(severity) == IconColor(SeverityIcon(severity))
  {
  }

  /** `handleClose`: every close request except a click away closes the pop-up. */
  predicate Closes(reason: Option<string>) {
    reason != Some("clickaway")
  }

  /** The local `showFullDetails` cell behind the Show Details button. */
  class DetailsToggle {
    var showFullDetails: bool

    constructor()
      ensures !showFullDetails
    {
      showFullDetails := false;
    }

    method Toggle()
      modifies this
      ensures showFullDetails == !old(showFullDetails)
    {
      showFullDetails := !showFullDetails;
    }
  }
}
