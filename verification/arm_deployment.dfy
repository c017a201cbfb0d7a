/**
 * Submitting a Resource Manager template: the deployment is validated first
 * and created only when validation reports no error; a validation error tree
 * is flattened, depth first, into the lines of one user-facing message.
 */
module ArmDeployment {
  import opened Wrappers

  // ---------------------------------------------------------------------
  // The error tree and its flattening
  // ---------------------------------------------------------------------

  /**
   * An error reported by the Resource Manager: a code, a message and nested
   * details. A missing `details` list and an empty one behave alike and are
   * both the empty sequence here.
   */
  datatype ErrorDetail = ErrorDetail(code: string, message: string, details: seq<ErrorDetail>)

  /** The number of nodes of an error tree. */
  function Size(e: ErrorDetail): nat
    decreases e, 1
  {
    1 + SizeAll(e.details)
  }

  /** The number of nodes of a list of error trees. */
  function SizeAll(ds: seq<ErrorDetail>): nat
    decreases ds, 0
  {
    if ds == [] then 0 else SizeAll(ds[..|ds| - 1]) + Size(ds[|ds| - 1])
  }

  /** The nodes of an error tree in depth-first pre-order: a node, then its details in order. */
  function PreOrder(e: ErrorDetail): (r: seq<ErrorDetail>)
    decreases e, 1
    ensures |r| == Size(e) && r[0] == e
  {
    [e] + PreOrderAll(e.details)
  }

  /** The pre-orders of a list of error trees, one after the other. */
  function PreOrderAll(ds: seq<ErrorDetail>): (r: seq<ErrorDetail>)
    decreases ds, 0
    ensures |r| == SizeAll(ds)
  {
    if ds == [] then [] else PreOrderAll(ds[..|ds| - 1]) + PreOrder(ds[|ds| - 1])
  }

  /**
   * The line reported for one error node; `isFirst` says whether the output
   * list was still empty when the line was appended.
   */
  function Line(e: ErrorDetail, isFirst: bool): string {
    (if isFirst then "Error - " else " Inner Error - ")
      + "Code: \"" + e.code + "\" Message: \"" + e.message + "\""
  }

  /**
   * The lines that flattening an error tree appends to a list that was empty
   * (`isFirst`) or not: the node's own line, then the details' lines, each of
   * which is appended to a list that is no longer empty.
   */
  function Flatten(e: ErrorDetail, isFirst: bool): (r: seq<string>)
    decreases e, 1
    ensures |r| == Size(e) && r[0] == Line(e, isFirst)
  {
    [Line(e, isFirst)] + FlattenAll(e.details)
  }

  /** The lines that flattening a list of details appends, in list order. */
  function FlattenAll(ds: seq<ErrorDetail>): (r: seq<string>)
    decreases ds, 0
    ensures |r| == SizeAll(ds)
  {
    if ds == [] then [] else FlattenAll(ds[..|ds| - 1]) + Flatten(ds[|ds| - 1], false)
  }

  /**
   * Line `i` of a flattened tree is the line of the `i`-th node in pre-order;
   * only the very first line, and only when the list started empty, carries
   * the `Error - ` prefix.
   */
  lemma {:induction false} FlattenIsPreOrder(e: ErrorDetail, isFirst: bool)
    decreases e, 1
    ensures |Flatten(e, isFirst)| == |PreOrder(e)|
    ensures forall i :: 0 <= i < |PreOrder(e)| ==>
      Flatten(e, isFirst)[i] == Line(PreOrder(e)[i], isFirst && i == 0)
  {
    FlattenAllIsPreOrder(e.details);
  }

  /** Flattening a list of details formats its nodes in pre-order, all as inner errors. */
  lemma {:induction false} FlattenAllIsPreOrder(ds: seq<ErrorDetail>)
    decreases ds, 0
    ensures |FlattenAll(ds)| == |PreOrderAll(ds)|
    ensures forall i :: 0 <= i < |PreOrderAll(ds)| ==> FlattenAll(ds)[i] == Line(PreOrderAll(ds)[i], false)
  {
    if ds != [] {
      var init, last := ds[..|ds| - 1], ds[|ds| - 1];
      FlattenAllIsPreOrder(init);
      FlattenIsPreOrder(last, false);
      var n := |PreOrderAll(init)|;
      forall i | 0 <= i < |PreOrderAll(ds)|
        ensures FlattenAll(ds)[i] == Line(PreOrderAll(ds)[i], false)
      {
        if i < n {
          assert FlattenAll(ds)[i] == FlattenAll(init)[i];
          assert PreOrderAll(ds)[i] == PreOrderAll(init)[i];
        } else {
          assert FlattenAll(ds)[i] == Flatten(last, false)[i - n];
          assert PreOrderAll(ds)[i] == PreOrder(last)[i - n];
        }
      }
    }
  }

  /** A node without details contributes exactly its own line. */
  lemma LeafFlattensToOneLine(e: ErrorDetail, isFirst: bool)
    requires e.details == []
    ensures Flatten(e, isFirst) == [Line(e, isFirst)]
  {
  }

  // ---------------------------------------------------------------------
  // The caller-owned output list and the recursive builder
  // ---------------------------------------------------------------------

  /** A Python list of strings that is shared with, and appended to by, the callee. */
  class OutputList {
    var lines: seq<string>

    constructor (initial: seq<string>)
      ensures lines == initial
    {
      lines := initial;
    }

    /** `list.append(line)`. */
    method Append(line: string)
      modifies this
      ensures lines == old(lines) + [line]
    {
      lines := lines + [line];
    }

    /** `list.insert(index, line)` for a non-negative index; one past the end appends. */
    method Insert(index: nat, line: string)
      modifies this
      ensures var k := if index < |old(lines)| then index else |old(lines)|;
        lines == old(lines)[..k] + [line] + old(lines)[k..]
    {
      var k := if index < |lines| then index else |lines|;
      lines := lines[..k] + [line] + lines[k..];
    }
  }

  /**
   * Appends one line per node of the error tree to the caller's list, in
   * depth-first pre-order, and returns that same list. The earlier contents
   * stay as an unchanged prefix.
   */
  method BuildDetailedError(topError: ErrorDetail, outputList: OutputList) returns (r: OutputList)
    modifies outputList
    decreases topError
    ensures r == outputList
    ensures outputList.lines == old(outputList.lines) + Flatten(topError, old(outputList.lines) == [])
  {
    if |outputList.lines| > 0 {
      outputList.Append(Line(topError, false));
    } else {
      outputList.Append(Line(topError, true));
    }
    ghost var afterHead := outputList.lines;
    var details := topError.details;
    for i := 0 to |details|
      invariant outputList.lines == afterHead + FlattenAll(details[..i])
    {
      assert details[..i + 1][..i] == details[..i];
      assert FlattenAll(details[..i + 1]) == FlattenAll(details[..i]) + Flatten(details[i], false);
      var _ := BuildDetailedError(details[i], outputList);
    }
    assert details[..|details|] == details;
    return outputList;
  }

  // ---------------------------------------------------------------------
  // The deployment name
  // ---------------------------------------------------------------------

  /** The wall-clock reading the deployment name is made from, to the minute. */
  datatype Timestamp = Timestamp(year: nat, month: nat, day: nat, hour: nat, minute: nat)

  /** The ranges of a calendar date and time of day, as the clock delivers them. */
  predicate ValidTimestamp(t: Timestamp) {
    1 <= t.year <= 9999 && 1 <= t.month <= 12 && 1 <= t.day <= 31 && t.hour < 24 && t.minute < 60
  }

  function Pow10(w: nat): nat {
    if w == 0 then 1 else 10 * Pow10(w - 1)
  }

  predicate IsDigit(c: char) {
    '0' <= c <= '9'
  }

  predicate AllDigits(s: string) {
    forall i :: 0 <= i < |s| ==> IsDigit(s[i])
  }

  /** `n` in decimal, left-padded with zeros to `width` digits. */
  function ZeroPad(n: nat, width: nat): (s: string)
    requires n < Pow10(width)
    ensures |s| == width && AllDigits(s)
  {
    if width == 0 then ""
    else ZeroPad(n / 10, width - 1) + [('0' as int + n % 10) as char]
  }

  /** The number a string of decimal digits denotes. */
  function DecimalValue(s: string): nat
    requires AllDigits(s)
  {
    if s == [] then 0 else 10 * DecimalValue(s[..|s| - 1]) + (s[|s| - 1] as int - '0' as int)
  }

  /** Reading back a zero-padded number gives the number. */
  lemma {:induction false} DecimalValueOfZeroPad(n: nat, width: nat)
    requires n < Pow10(width)
    ensures DecimalValue(ZeroPad(n, width)) == n
  {
    if width > 0 {
      DecimalValueOfZeroPad(n / 10, width - 1);
      var s := ZeroPad(n, width);
      assert s[..|s| - 1] == ZeroPad(n / 10, width - 1);
    }
  }

  /** The `%Y%m%d%H%M` rendering of the clock: twelve digits. */
  function Suffix(t: Timestamp): (s: string)
    requires ValidTimestamp(t)
    ensures |s| == 12 && AllDigits(s)
  {
    ZeroPad(t.year, 4) + ZeroPad(t.month, 2) + ZeroPad(t.day, 2) + ZeroPad(t.hour, 2) + ZeroPad(t.minute, 2)
  }

  const DeploymentPrefix := "AzurePSDeployment-"

  function DeploymentName(t: Timestamp): string
    requires ValidTimestamp(t)
  {
    DeploymentPrefix + Suffix(t)
  }

  /** Two different minutes never give the same deployment name. */
  lemma DeploymentNameInjective(a: Timestamp, b: Timestamp)
    requires ValidTimestamp(a) && ValidTimestamp(b)
    requires DeploymentName(a) == DeploymentName(b)
    ensures a == b
  {
    var sa, sb := Suffix(a), Suffix(b);
    assert sa == DeploymentName(a)[|DeploymentPrefix|..];
    assert sb == DeploymentName(b)[|DeploymentPrefix|..];
    assert sa[0..4] == ZeroPad(a.year, 4) && sb[0..4] == ZeroPad(b.year, 4);
    assert sa[4..6] == ZeroPad(a.month, 2) && sb[4..6] == ZeroPad(b.month, 2);
    assert sa[6..8] == ZeroPad(a.day, 2) && sb[6..8] == ZeroPad(b.day, 2);
    assert sa[8..10] == ZeroPad(a.hour, 2) && sb[8..10] == ZeroPad(b.hour, 2);
    assert sa[10..12] == ZeroPad(a.minute, 2) && sb[10..12] == ZeroPad(b.minute, 2);
    DecimalValueOfZeroPad(a.year, 4);
    DecimalValueOfZeroPad(b.year, 4);
    DecimalValueOfZeroPad(a.month, 2);
    DecimalValueOfZeroPad(b.month, 2);
    DecimalValueOfZeroPad(a.day, 2);
    DecimalValueOfZeroPad(b.day, 2);
    DecimalValueOfZeroPad(a.hour, 2);
    DecimalValueOfZeroPad(b.hour, 2);
    DecimalValueOfZeroPad(a.minute, 2);
    DecimalValueOfZeroPad(b.minute, 2);
  }

  // ---------------------------------------------------------------------
  // Validate, then deploy
  // ---------------------------------------------------------------------

  const IncrementalMode := "incremental"

  const ValidationHeader := "Error validating template. See below for more information."

  /** One submission to the deployments API; template and parameters are carried as opaque JSON text. */
  datatype Request = Request(
    resourceGroup: string, deploymentName: string, template: string, parameters: string,
    mode: string, validateOnly: bool)

  /** Python's `sep.join(lines)`. */
  function Join(sep: string, lines: seq<string>): string {
    if lines == [] then "" else if |lines| == 1 then lines[0] else lines[0] + sep + Join(sep, lines[1..])
  }

  /** The text of the error raised when validation fails: the header line, then the flattened error tree. */
  function ValidationMessage(error: ErrorDetail): string {
    Join("\n", [ValidationHeader] + Flatten(error, true))
  }

  /** The raised message is the header, a newline, and then the root error's `Error - ` line. */
  lemma ValidationMessageStartsWithRoot(error: ErrorDetail)
    ensures var root := ValidationHeader + "\n" + Line(error, true);
      |root| <= |ValidationMessage(error)| && ValidationMessage(error)[..|root|] == root
  {
    var lines := Flatten(error, true);
    var rest := if |lines| == 1 then "" else "\n" + Join("\n", lines[1..]);
    assert ([ValidationHeader] + lines)[1..] == lines;
    assert Join("\n", lines) == lines[0] + rest;
    assert ValidationMessage(error) == ValidationHeader + "\n" + Line(error, true) + rest;
  }

  /**
   * The Resource Manager's deployments API, as far as this code can see it:
   * validation answers with what `verdict` says of the request, and every
   * call is recorded, in order, in `trace`.
   */
  class ResourceClient {
    const verdict: Request -> Option<ErrorDetail>
    ghost var trace: seq<Request>

    constructor (verdict: Request -> Option<ErrorDetail>)
      ensures this.verdict == verdict && trace == []
    {
      this.verdict := verdict;
      trace := [];
    }

    /** `deployments.validate`: the error it reports, if any. */
    method Validate(request: Request) returns (error: Option<ErrorDetail>)
      requires request.validateOnly
      modifies this
      ensures error == verdict(request)
      ensures trace == old(trace) + [request]
    {
      error := verdict(request);
      trace := trace + [request];
    }

    /** `deployments.create_or_update`, polled until the operation completes. */
    method CreateOrUpdate(request: Request)
      requires !request.validateOnly
      modifies this
      ensures trace == old(trace) + [request]
    {
      trace := trace + [request];
    }
  }

  /**
   * Validates the template under a deployment name made from the clock and,
   * only if validation reports no error, deploys it under the same name in
   * incremental mode. A validation error becomes the raised message.
   */
  method ValidateAndDeploy(
      client: ResourceClient, resourceGroup: string, template: string, parameters: string, now: Timestamp)
      returns (r: Result<(), string>)
    requires ValidTimestamp(now)
    modifies client
    ensures var validation := Request(resourceGroup, DeploymentName(now), template, parameters, IncrementalMode, true);
      match client.verdict(validation)
      case Some(error) =>
        r == Failure(ValidationMessage(error)) && client.trace == old(client.trace) + [validation]
      case None =>
        r == Success(()) && client.trace == old(client.trace) + [validation, validation.(validateOnly := false)]
  {
    var suffix := Suffix(now);
    var deploymentName := DeploymentPrefix + suffix;
    var validation := Request(resourceGroup, deploymentName, template, parameters, IncrementalMode, true);
    var validateResult := client.Validate(validation);
    if validateResult.Some? {
      var empty := new OutputList([]);
      var errorsDetailed := BuildDetailedError(validateResult.value, empty);
      errorsDetailed.Insert(0, ValidationHeader);
      return Failure(Join("\n", errorsDetailed.lines));
    }
    client.CreateOrUpdate(Request(resourceGroup, deploymentName, template, parameters, IncrementalMode, false));
    return Success(());
  }
}
