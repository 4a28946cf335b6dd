/** Plausibility of a node-reported completion, and the bound it puts on host credit. */
module Metering {
  import opened Options
  import opened Charges
  import opened Int64
  import Sums
  import Text

  datatype Message = Message(role: string, content: string)
  datatype Request = Request(messages: seq<Message>, maxTokens: int)
  datatype Payload = Payload(message: Option<Message>, prompt: int, completion: int, total: int, durationMillis: int)

  datatype Code =
    | MissingMessage | BadRole | EmptyCompletion | NegativeUsage | UsageTotalMismatch
    | PromptTokensOutlier | CompletionTokensOutlier | CompletionLengthOutlier | DurationOutlier
  datatype Severity = Reject | Flag
  datatype Status = Accepted | Flagged | Rejected

  function SeverityOf(c: Code): Severity {
    match c
    case PromptTokensOutlier => Flag
    case CompletionLengthOutlier => Flag
    case DurationOutlier => Flag
    case _ => Reject
  }

  function EstimateTokens(content: string): (n: nat)
    ensures 4 * n >= |content| && 4 * n < |content| + 4
  {
    (|content| + 3) / 4
  }

  function EstimatePrompt(messages: seq<Message>): nat {
    if messages == [] then 0
    else EstimatePrompt(messages[..|messages| - 1]) + EstimateTokens(messages[|messages| - 1].content)
  }

  function OutputLimit(request: Request): (limit: int)
    ensures limit > 0
  {
    if request.maxTokens <= 0 then 1024 else request.maxTokens
  }

  /** The most completion tokens acceptance lets through, in the code's 64-bit arithmetic. */
  function CompletionLimit(request: Request): (limit: int)
    ensures OutputLimit(request) < TWO63 / 4 ==> limit == 2 * OutputLimit(request) + 16
  {
    Wrap(OutputLimit(request) * 2 + 16)
  }

  /** What the service checks against when it no longer has the job's run. */
  const NO_REQUEST: Request := Request([], 0)

  /** Appends an issue when it was found. */
  function Add(issues: seq<Code>, found: bool, code: Code): seq<Code> {
    if found then issues + [code] else issues
  }

  /** More than 5000 tokens per second, with the division cleared. */
  predicate TooFast(p: Payload) {
    p.durationMillis > 0 && p.total > 0 && p.total * 1000 > 5000 * p.durationMillis
  }

  function ShapeIssues(m: Message, p: Payload): seq<Code> {
    var i1 := Add([], m.role != "assistant", BadRole);
    var i2 := Add(i1, Text.TrimSpace(m.content) == "", EmptyCompletion);
    var i3 := Add(i2, p.prompt < 0 || p.completion < 0 || p.total < 0, NegativeUsage);
    Add(i3, p.total != Wrap(p.prompt + p.completion), UsageTotalMismatch)
  }

  function SizeIssues(before: seq<Code>, m: Message, p: Payload, estimatedPrompt: nat, limit: int): seq<Code> {
    var i1 := Add(before, estimatedPrompt > 0 && p.prompt > estimatedPrompt * 8 + 128, PromptTokensOutlier);
    var i2 := Add(i1, p.completion > limit, CompletionTokensOutlier);
    var length := EstimateTokens(m.content);
    var i3 := Add(i2, length > 0 && p.completion > length * 8 + 128, CompletionLengthOutlier);
    Add(i3, TooFast(p), DurationOutlier)
  }

  function Issues(request: Request, p: Payload): seq<Code> {
    match p.message
    case None => [MissingMessage]
    case Some(m) => SizeIssues(ShapeIssues(m, p), m, p, EstimatePrompt(request.messages), CompletionLimit(request))
  }

  method PlausibilityIssues(request: Request, p: Payload) returns (issues: seq<Code>)
    ensures issues == Issues(request, p)
  {
    if p.message.None? {
      return [MissingMessage];
    }
    issues := ShapeIssues(p.message.value, p);
    var estimated := 0;
    for i := 0 to |request.messages|
      invariant estimated == EstimatePrompt(request.messages[..i])
    {
      assert request.messages[..i + 1][..i] == request.messages[..i];
      estimated := estimated + EstimateTokens(request.messages[i].content);
    }
    assert request.messages[..|request.messages|] == request.messages;
    issues := SizeIssues(issues, p.message.value, p, estimated, CompletionLimit(request));
  }

  predicate HasReject(issues: seq<Code>) {
    exists i | 0 <= i < |issues| :: SeverityOf(issues[i]) == Reject
  }

  /** Rejected exactly when some issue rejects, flagged exactly when some flag and none rejects. */
  method MeteringStatus(issues: seq<Code>) returns (status: Status)
    ensures status == Rejected <==> HasReject(issues)
    ensures status == Accepted <==> issues == []
  {
    status := Accepted;
    for i := 0 to |issues|
      invariant forall k | 0 <= k < i :: SeverityOf(issues[k]) != Reject
      invariant status == if i == 0 then Accepted else Flagged
    {
      if SeverityOf(issues[i]) == Reject {
        return Rejected;
      }
      status := Flagged;
    }
  }

  /** What acceptance of a completion says about it, without naming the issue list. */
  predicate Plausible(request: Request, p: Payload) {
    && p.message.Some?
    && p.message.value.role == "assistant"
    && (exists i | 0 <= i < |p.message.value.content| :: !Text.IsSpace(p.message.value.content[i]))
    && p.prompt >= 0
    && p.completion >= 0
    && 0 <= p.total == Wrap(p.prompt + p.completion)
    && p.completion <= CompletionLimit(request)
  }

  method ValidateCompletionForAcceptance(request: Request, p: Payload) returns (issues: seq<Code>, accepted: bool)
    ensures issues == Issues(request, p)
    ensures accepted <==> Plausible(request, p)
  {
    issues := PlausibilityIssues(request, p);
    AcceptedIffPlausible(request, p);
    var rejected := AnyRejects(issues);
    accepted := !rejected;
  }

  method AnyRejects(issues: seq<Code>) returns (rejected: bool)
    ensures rejected <==> HasReject(issues)
  {
    for i := 0 to |issues|
      invariant forall k | 0 <= k < i :: SeverityOf(issues[k]) != Reject
    {
      if SeverityOf(issues[i]) == Reject {
        return true;
      }
    }
    rejected := false;
  }

  lemma TrimSpaceEmpty(s: string)
    ensures Text.TrimSpace(s) == "" <==> forall i | 0 <= i < |s| :: Text.IsSpace(s[i])
  {
    TrimLeftEmpty(s);
    Text.TrimLeftStops(s, Text.IsSpace);
    var t := Text.TrimLeft(s, Text.IsSpace);
    if t != "" {
      TrimRightKeeps(t);
    }
  }

  lemma {:induction false} TrimLeftEmpty(s: string)
    ensures Text.TrimLeft(s, Text.IsSpace) == "" <==> forall i | 0 <= i < |s| :: Text.IsSpace(s[i])
  {
    if s != "" && Text.IsSpace(s[0]) {
      TrimLeftEmpty(s[1..]);
      assert forall i | 1 <= i < |s| :: s[i] == s[1..][i - 1];
    }
  }

  lemma {:induction false} TrimRightKeeps(s: string)
    requires s != "" && !Text.IsSpace(s[0])
    ensures Text.TrimRight(s, Text.IsSpace) != ""
  {
    if Text.IsSpace(s[|s| - 1]) {
      TrimRightKeeps(s[..|s| - 1]);
    }
  }

  lemma AddedReject(issues: seq<Code>, found: bool, code: Code)
    ensures HasReject(Add(issues, found, code)) <==> HasReject(issues) || (found && SeverityOf(code) == Reject)
  {
    if HasReject(issues) {
      var i :| 0 <= i < |issues| && SeverityOf(issues[i]) == Reject;
      assert Add(issues, found, code)[i] == issues[i];
    }
    if found {
      assert Add(issues, found, code)[|issues|] == code;
    }
  }

  lemma ShapeRejects(m: Message, p: Payload)
    ensures HasReject(ShapeIssues(m, p)) <==>
            (m.role != "assistant" || Text.TrimSpace(m.content) == "" || p.prompt < 0 || p.completion < 0 || p.total < 0
             || p.total != Wrap(p.prompt + p.completion))
  {
    var i1 := Add([], m.role != "assistant", BadRole);
    var i2 := Add(i1, Text.TrimSpace(m.content) == "", EmptyCompletion);
    var i3 := Add(i2, p.prompt < 0 || p.completion < 0 || p.total < 0, NegativeUsage);
    AddedReject([], m.role != "assistant", BadRole);
    AddedReject(i1, Text.TrimSpace(m.content) == "", EmptyCompletion);
    AddedReject(i2, p.prompt < 0 || p.completion < 0 || p.total < 0, NegativeUsage);
    AddedReject(i3, p.total != Wrap(p.prompt + p.completion), UsageTotalMismatch);
  }

  lemma SizeRejects(before: seq<Code>, m: Message, p: Payload, estimatedPrompt: nat, limit: int)
    ensures HasReject(SizeIssues(before, m, p, estimatedPrompt, limit)) <==>
            HasReject(before) || p.completion > limit
  {
    var i1 := Add(before, estimatedPrompt > 0 && p.prompt > estimatedPrompt * 8 + 128, PromptTokensOutlier);
    var i2 := Add(i1, p.completion > limit, CompletionTokensOutlier);
    var length := EstimateTokens(m.content);
    var i3 := Add(i2, length > 0 && p.completion > length * 8 + 128, CompletionLengthOutlier);
    AddedReject(before, estimatedPrompt > 0 && p.prompt > estimatedPrompt * 8 + 128, PromptTokensOutlier);
    AddedReject(i1, p.completion > limit, CompletionTokensOutlier);
    AddedReject(i2, length > 0 && p.completion > length * 8 + 128, CompletionLengthOutlier);
    AddedReject(i3, TooFast(p), DurationOutlier);
  }

  lemma AcceptedIffPlausible(request: Request, p: Payload)
    ensures !HasReject(Issues(request, p)) <==> Plausible(request, p)
  {
    match p.message
    case None =>
      assert SeverityOf([MissingMessage][0]) == Reject;
    case Some(m) =>
      TrimSpaceEmpty(m.content);
      ShapeRejects(m, p);
      SizeRejects(ShapeIssues(m, p), m, p, EstimatePrompt(request.messages), CompletionLimit(request));
  }

  function UsageOf(p: Payload): Usage {
    Usage(p.prompt, p.completion)
  }

  /**
   The credit of a plausible completion is bounded by the request it was checked against, whatever the node
   reports and whatever the price.
   */
  lemma HostCreditBounded(request: Request, p: Payload, prices: Prices)
    requires Plausible(request, p)
    ensures HostCredit(UsageOf(p), prices) * MILLION <= Exact(CompletionLimit(request), prices.host) + HALF_MILLION
  {
    ChargeNeverExceeds(p.completion, prices.host);
    ExactMonotone(p.completion, prices.host, CompletionLimit(request), prices.host);
  }

  // ---------------------------------------------------------------- the list, code by code

  /** A quarter of the characters, rounded up. */
  ghost function Quarter(): Message -> int {
    (m: Message) => (|m.content| + 3) / 4
  }

  lemma {:induction false} EstimateIsSum(messages: seq<Message>)
    ensures EstimatePrompt(messages) == Sums.Sum(messages, Quarter())
  {
    if messages != [] {
      EstimateIsSum(messages[..|messages| - 1]);
    }
  }

  /** What each code says about a completion. */
  ghost predicate Means(code: Code, request: Request, p: Payload) {
    if p.message.None? then code == MissingMessage
    else
      var m := p.message.value;
      match code
      case MissingMessage => false
      case BadRole => m.role != "assistant"
      case EmptyCompletion => forall i | 0 <= i < |m.content| :: Text.IsSpace(m.content[i])
      case NegativeUsage => p.prompt < 0 || p.completion < 0 || p.total < 0
      case UsageTotalMismatch => p.total != Wrap(p.prompt + p.completion)
      case PromptTokensOutlier =>
        var estimated := Sums.Sum(request.messages, Quarter());
        estimated > 0 && p.prompt > 8 * estimated + 128
      case CompletionTokensOutlier =>
        p.completion > Wrap(2 * (if request.maxTokens > 0 then request.maxTokens else 1024) + 16)
      case CompletionLengthOutlier => m.content != "" && p.completion > 8 * ((|m.content| + 3) / 4) + 128
      case DurationOutlier => p.durationMillis > 0 && p.total > 0 && p.total * 1000 > 5000 * p.durationMillis
  }

  /** The place of each code in the list. */
  function Place(code: Code): nat {
    match code
    case MissingMessage => 0
    case BadRole => 1
    case EmptyCompletion => 2
    case NegativeUsage => 3
    case UsageTotalMismatch => 4
    case PromptTokensOutlier => 5
    case CompletionTokensOutlier => 6
    case CompletionLengthOutlier => 7
    case DurationOutlier => 8
  }

  predicate InPlace(issues: seq<Code>) {
    forall i, j | 0 <= i < j < |issues| :: Place(issues[i]) < Place(issues[j])
  }

  predicate AllBelow(issues: seq<Code>, place: nat) {
    forall i | 0 <= i < |issues| :: Place(issues[i]) < place
  }

  lemma AddedInPlace(issues: seq<Code>, found: bool, code: Code, other: Code)
    requires InPlace(issues) && AllBelow(issues, Place(code))
    ensures var more := Add(issues, found, code);
            && InPlace(more) && AllBelow(more, Place(code) + 1)
            && (other in more <==> other in issues || (found && other == code))
  {
  }

  lemma ShapeInPlace(m: Message, p: Payload, code: Code)
    ensures var issues := ShapeIssues(m, p);
            && InPlace(issues) && AllBelow(issues, 5)
            && (code in issues <==>
                  || (code == BadRole && m.role != "assistant")
                  || (code == EmptyCompletion && Text.TrimSpace(m.content) == "")
                  || (code == NegativeUsage && (p.prompt < 0 || p.completion < 0 || p.total < 0))
                  || (code == UsageTotalMismatch && p.total != Wrap(p.prompt + p.completion)))
  {
    FourInPlace(m.role != "assistant", Text.TrimSpace(m.content) == "",
                p.prompt < 0 || p.completion < 0 || p.total < 0, p.total != Wrap(p.prompt + p.completion), code);
  }

  lemma FourInPlace(role: bool, empty: bool, negative: bool, mismatch: bool, code: Code)
    ensures var two := Add(Add([], role, BadRole), empty, EmptyCompletion);
            var issues := Add(Add(two, negative, NegativeUsage), mismatch, UsageTotalMismatch);
            && InPlace(issues) && AllBelow(issues, 5)
            && (code in issues <==>
                  || (code == BadRole && role) || (code == EmptyCompletion && empty)
                  || (code == NegativeUsage && negative) || (code == UsageTotalMismatch && mismatch))
  {
    var i1 := Add([], role, BadRole);
    var i2 := Add(i1, empty, EmptyCompletion);
    var i3 := Add(i2, negative, NegativeUsage);
    AddedInPlace([], role, BadRole, code);
    AddedInPlace(i1, empty, EmptyCompletion, code);
    AddedInPlace(i2, negative, NegativeUsage, code);
    AddedInPlace(i3, mismatch, UsageTotalMismatch, code);
  }

  lemma SizeInPlace(before: seq<Code>, m: Message, p: Payload, estimated: nat, limit: int, code: Code)
    requires InPlace(before) && AllBelow(before, 5)
    ensures var issues := SizeIssues(before, m, p, estimated, limit);
            && InPlace(issues)
            && (code in issues <==>
                  || code in before
                  || (code == PromptTokensOutlier && estimated > 0 && p.prompt > estimated * 8 + 128)
                  || (code == CompletionTokensOutlier && p.completion > limit)
                  || (code == CompletionLengthOutlier && EstimateTokens(m.content) > 0
                      && p.completion > EstimateTokens(m.content) * 8 + 128)
                  || (code == DurationOutlier && TooFast(p)))
  {
    var i1 := Add(before, estimated > 0 && p.prompt > estimated * 8 + 128, PromptTokensOutlier);
    var i2 := Add(i1, p.completion > limit, CompletionTokensOutlier);
    var length := EstimateTokens(m.content);
    var i3 := Add(i2, length > 0 && p.completion > length * 8 + 128, CompletionLengthOutlier);
    AddedInPlace(before, estimated > 0 && p.prompt > estimated * 8 + 128, PromptTokensOutlier, code);
    AddedInPlace(i1, p.completion > limit, CompletionTokensOutlier, code);
    AddedInPlace(i2, length > 0 && p.completion > length * 8 + 128, CompletionLengthOutlier, code);
    AddedInPlace(i3, TooFast(p), DurationOutlier, code);
  }

  /** A code is in the list exactly when it applies, and the codes come in their order, each at most once. */
  lemma IssuesAre(request: Request, p: Payload, code: Code)
    ensures InPlace(Issues(request, p)) && (code in Issues(request, p) <==> Means(code, request, p))
  {
    if p.message.Some? {
      var m := p.message.value;
      TrimSpaceEmpty(m.content);
      EstimateIsSum(request.messages);
      ShapeInPlace(m, p, code);
      SizeInPlace(ShapeIssues(m, p), m, p, EstimatePrompt(request.messages), CompletionLimit(request), code);
    }
  }

  lemma HasSome(issues: seq<Code>)
    ensures issues == [] || exists code :: code in issues
  {
    assert issues == [] || issues[0] in issues;
  }

  predicate SameCodes(a: seq<Code>, b: seq<Code>) {
    forall code :: code in a <==> code in b
  }

  lemma LastIsSame(a: seq<Code>, b: seq<Code>)
    requires a != [] && b != [] && InPlace(a) && InPlace(b) && SameCodes(a, b)
    ensures a[|a| - 1] == b[|b| - 1]
  {
    assert a[|a| - 1] in b && b[|b| - 1] in a;
    assert Place(a[|a| - 1]) == Place(b[|b| - 1]);
  }

  lemma RestIsSame(a: seq<Code>, b: seq<Code>, last: Code)
    requires InPlace(a + [last]) && InPlace(b + [last]) && SameCodes(a + [last], b + [last])
    ensures InPlace(a) && InPlace(b) && SameCodes(a, b)
  {
    NotBefore(a, last);
    NotBefore(b, last);
    forall code ensures code in a <==> code in b {
      assert code in a + [last] <==> code in b + [last];
    }
  }

  lemma NotBefore(issues: seq<Code>, last: Code)
    requires InPlace(issues + [last])
    ensures InPlace(issues) && last !in issues
  {
    var all := issues + [last];
    forall i, j | 0 <= i < j < |issues| ensures Place(issues[i]) < Place(issues[j]) {
      assert all[i] == issues[i] && all[j] == issues[j];
    }
    forall i | 0 <= i < |issues| ensures issues[i] != last {
      assert all[i] == issues[i] && all[|issues|] == last;
    }
  }

  /** That leaves only one list. */
  lemma {:induction false} OneList(a: seq<Code>, b: seq<Code>)
    requires InPlace(a) && InPlace(b) && SameCodes(a, b)
    ensures a == b
  {
    HasSome(a);
    HasSome(b);
    if a != [] && b != [] {
      LastIsSame(a, b);
      var a', b', last := a[..|a| - 1], b[..|b| - 1], a[|a| - 1];
      assert a == a' + [last] && b == b' + [last];
      RestIsSame(a', b', last);
      OneList(a', b');
    }
  }
}
