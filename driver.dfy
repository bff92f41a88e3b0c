/**
 * The retrieval loop at the end of main (src/main.c:690-699, 754-787, 818-821):
 * each command-line URL is fetched with retrieve_tree or retrieve_url, then the
 * input file with retrieve_from_file, and main returns 0 exactly when the
 * status left by the last of these calls is RETROK.
 *
 * The collaborators are parameters: rewrite_shorthand_url is `rewrite`, the
 * test url_scheme (u) == SCHEME_FTP is `isFtp`, and the three retrieval
 * functions are one `outcome`, which gives the status the k-th call returns.
 */
module Driver {
  import opened Wrappers
  import Validate

  /** uerr_t, as far as main looks at it: RETROK or some other code. */
  datatype Status = RetrOk | Failed(code: int)

  /** One retrieval main makes. */
  datatype Call = Tree(url: string) | Single(url: string) | FromFile(file: string)

  /** The URL main keeps for an argument: its shorthand expansion, or the argument itself (main.c:692-697). */
  function Expanded(arg: string, rewrite: string -> Option<string>): string {
    match rewrite(arg)
    case Some(u) => u
    case None => arg
  }

  /** The strategy test of main.c:761-765: retrieve_tree for -r or -p, unless the URL is FTP. */
  predicate UseTree(recursive: bool, pageRequisites: bool, ftp: bool) {
    (recursive || pageRequisites) && !ftp
  }

  /** The calls for the URLs, one each, in order. */
  function UrlCalls(urls: seq<string>, recursive: bool, pageRequisites: bool, isFtp: string -> bool): (calls: seq<Call>)
    ensures |calls| == |urls|
    ensures forall k :: 0 <= k < |urls| ==>
      calls[k] == if UseTree(recursive, pageRequisites, isFtp(urls[k])) then Tree(urls[k]) else Single(urls[k])
  {
    if urls == [] then []
    else
      var u := urls[|urls| - 1];
      UrlCalls(urls[..|urls| - 1], recursive, pageRequisites, isFtp) +
      [if UseTree(recursive, pageRequisites, isFtp(u)) then Tree(u) else Single(u)]
  }

  /** Every call main makes: the URLs', then the input file's if there is one. */
  function Plan(urls: seq<string>, recursive: bool, pageRequisites: bool, isFtp: string -> bool, input: Option<string>): seq<Call> {
    UrlCalls(urls, recursive, pageRequisites, isFtp) + if input.Some? then [FromFile(input.value)] else []
  }

  /** status after the first n calls: RETROK before any, then whatever the latest call returned. */
  function StatusAfter(calls: seq<Call>, outcome: (nat, Call) -> Status, n: nat): Status
    requires n <= |calls|
  {
    if n == 0 then RetrOk else outcome(n - 1, calls[n - 1])
  }

  /** main's return value for a final status (main.c:818-821). */
  function ExitCode(s: Status): int {
    if s == RetrOk then 0 else 1
  }

  // ---------------------------------------------------------------------------
  // The loops

  /** The URL array (main.c:690-699): each argument expanded, in order. */
  method FillUrls(args: seq<string>, rewrite: string -> Option<string>) returns (url: array<string>)
    ensures fresh(url) && url.Length == |args|
    ensures forall k :: 0 <= k < |args| ==> url[k] == Expanded(args[k], rewrite)
  {
    url := new string[|args|];
    var i := 0;
    while i < |args|
      invariant i <= |args|
      invariant forall k :: 0 <= k < i ==> url[k] == Expanded(args[k], rewrite)
    {
      var rewritten := rewrite(args[i]);
      if rewritten.Some? {
        url[i] := rewritten.value;
      } else {
        url[i] := args[i];
      }
      i := i + 1;
    }
  }

  /**
   * The retrieval loop and the input file: the calls made, in order, and main's
   * return value, decided by the status of the last call alone.
   */
  method RetrieveAll(url: array<string>, recursive: bool, pageRequisites: bool, input: Option<string>,
                     isFtp: string -> bool, outcome: (nat, Call) -> Status) returns (calls: seq<Call>, code: int)
    ensures calls == Plan(url[..], recursive, pageRequisites, isFtp, input)
    ensures code == ExitCode(StatusAfter(calls, outcome, |calls|))
  {
    var status := RetrOk;
    calls := [];
    var i := 0;
    while i < url.Length
      invariant i <= url.Length
      invariant calls == UrlCalls(url[..i], recursive, pageRequisites, isFtp)
      invariant status == StatusAfter(calls, outcome, |calls|)
    {
      assert url[..i + 1][..i] == url[..i];
      var call;
      if (recursive || pageRequisites) && !isFtp(url[i]) {
        call := Tree(url[i]);
      } else {
        call := Single(url[i]);
      }
      status := outcome(|calls|, call);
      calls := calls + [call];
      i := i + 1;
    }
    assert url[..i] == url[..];
    if input.Some? {
      var call := FromFile(input.value);
      status := outcome(|calls|, call);
      calls := calls + [call];
    }
    code := if status == RetrOk then 0 else 1;
  }

  // ---------------------------------------------------------------------------
  // Properties

  /**
   * The k-th call fetches the k-th URL, with retrieve_tree exactly when -r or
   * -p is on and the URL is not FTP; the input file comes last.
   */
  lemma PlanCalls(urls: seq<string>, recursive: bool, pageRequisites: bool, isFtp: string -> bool, input: Option<string>)
    ensures var calls := Plan(urls, recursive, pageRequisites, isFtp, input);
      |calls| == |urls| + (if input.Some? then 1 else 0) &&
      (forall k :: 0 <= k < |urls| ==>
        !calls[k].FromFile? && calls[k].url == urls[k] &&
        (calls[k].Tree? <==> UseTree(recursive, pageRequisites, isFtp(urls[k])))) &&
      (input.Some? ==> calls[|urls|] == FromFile(input.value))
  {
  }

  /**
   * Only the last call counts: two runs whose last calls return the same status
   * end alike, whatever the earlier calls returned.
   */
  lemma OnlyLastCounts(calls: seq<Call>, outcome1: (nat, Call) -> Status, outcome2: (nat, Call) -> Status)
    requires calls != [] && outcome1(|calls| - 1, calls[|calls| - 1]) == outcome2(|calls| - 1, calls[|calls| - 1])
    ensures ExitCode(StatusAfter(calls, outcome1, |calls|)) == ExitCode(StatusAfter(calls, outcome2, |calls|))
  {
  }

  /**
   * With an input file, main returns 0 exactly when retrieve_from_file returns
   * RETROK, whatever happened to the URLs on the command line.
   */
  lemma InputFileDecides(urls: seq<string>, recursive: bool, pageRequisites: bool, isFtp: string -> bool,
                         file: string, outcome: (nat, Call) -> Status)
    ensures var calls := Plan(urls, recursive, pageRequisites, isFtp, Some(file));
      ExitCode(StatusAfter(calls, outcome, |calls|)) == 0 <==> outcome(|urls|, FromFile(file)) == RetrOk
  {
    PlanCalls(urls, recursive, pageRequisites, isFtp, Some(file));
  }

  /**
   * Once the checks pass, there is at least one call, so main returns 0 exactly
   * when the last call returns RETROK; the initial RETROK is never returned.
   */
  lemma CheckedRunsRetrieve(c: Validate.Config, urls: seq<string>, isFtp: string -> bool, outcome: (nat, Call) -> Status)
    requires Validate.Problem(c, |urls|).None?
    ensures var calls := Plan(urls, c.recursive, c.pageRequisites, isFtp, c.inputFilename);
      calls != [] &&
      (ExitCode(StatusAfter(calls, outcome, |calls|)) == 0 <==> outcome(|calls| - 1, calls[|calls| - 1]) == RetrOk)
  {
    PlanCalls(urls, c.recursive, c.pageRequisites, isFtp, c.inputFilename);
  }
}
