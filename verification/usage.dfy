/**
 * The token counters the gateway keeps for one backend call. Each record's
 * `usage` object is merged field by field with JavaScript's `new || old`,
 * so a missing field and a field equal to 0 both keep the stored count.
 */
module Usage {
  import opened Wrappers

  datatype Usage = Usage(prompt: nat, completion: nat, total: nat)

  const Zero := Usage(0, 0, 0)

  /** The `usage` object of one record; a missing field is `None`. */
  datatype UsageReport = UsageReport(prompt: Option<nat>, completion: Option<nat>, total: Option<nat>)

  /** A field value JavaScript treats as true: present and not zero. */
  predicate Truthy(v: Option<nat>) {
    v.Some? && v.value != 0
  }

  /** `observed || stored`. */
  function OrStored(observed: Option<nat>, stored: nat): (r: nat)
    ensures Truthy(observed) ==> r == observed.value
    ensures !Truthy(observed) ==> r == stored
  {
    if Truthy(observed) then observed.value else stored
  }

  /** Merge one record's usage into the counters: each field is replaced only by a truthy value. */
  function Merge(u: Usage, report: UsageReport): (r: Usage)
    ensures r.prompt == (if Truthy(report.prompt) then report.prompt.value else u.prompt)
    ensures r.completion == (if Truthy(report.completion) then report.completion.value else u.completion)
    ensures r.total == (if Truthy(report.total) then report.total.value else u.total)
  {
    Usage(OrStored(report.prompt, u.prompt),
          OrStored(report.completion, u.completion),
          OrStored(report.total, u.total))
  }

  /** Merging every report of a connection in order, from the given counters:
      each counter ends at its starting value or at a value some report carried. */
  function MergeAll(u: Usage, reports: seq<UsageReport>): (r: Usage)
    ensures r.prompt == u.prompt || exists i :: 0 <= i < |reports| && reports[i].prompt == Some(r.prompt)
    ensures r.completion == u.completion || exists i :: 0 <= i < |reports| && reports[i].completion == Some(r.completion)
    ensures r.total == u.total || exists i :: 0 <= i < |reports| && reports[i].total == Some(r.total)
    decreases |reports|
  {
    if reports == [] then u else Merge(MergeAll(u, reports[..|reports| - 1]), reports[|reports| - 1])
  }

  /** The last truthy value among `values`, if any. */
  function LastTruthy(values: seq<Option<nat>>): Option<nat>
    decreases |values|
  {
    if values == [] then None
    else if Truthy(values[|values| - 1]) then values[|values| - 1]
    else LastTruthy(values[..|values| - 1])
  }

  function Prompts(reports: seq<UsageReport>): (r: seq<Option<nat>>)
    ensures |r| == |reports| && forall i :: 0 <= i < |reports| ==> r[i] == reports[i].prompt
  {
    seq(|reports|, i requires 0 <= i < |reports| => reports[i].prompt)
  }

  function Completions(reports: seq<UsageReport>): (r: seq<Option<nat>>)
    ensures |r| == |reports| && forall i :: 0 <= i < |reports| ==> r[i] == reports[i].completion
  {
    seq(|reports|, i requires 0 <= i < |reports| => reports[i].completion)
  }

  function Totals(reports: seq<UsageReport>): (r: seq<Option<nat>>)
    ensures |r| == |reports| && forall i :: 0 <= i < |reports| ==> r[i] == reports[i].total
  {
    seq(|reports|, i requires 0 <= i < |reports| => reports[i].total)
  }

  /** After a run of merges each counter holds the last truthy value reported
      for it, or its starting value when no report carried one. */
  lemma {:induction false} MergeAllKeepsLastTruthy(u: Usage, reports: seq<UsageReport>)
    ensures MergeAll(u, reports).prompt == LastTruthy(Prompts(reports)).GetOr(u.prompt)
    ensures MergeAll(u, reports).completion == LastTruthy(Completions(reports)).GetOr(u.completion)
    ensures MergeAll(u, reports).total == LastTruthy(Totals(reports)).GetOr(u.total)
    decreases |reports|
  {
    if reports != [] {
      var init := reports[..|reports| - 1];
      MergeAllKeepsLastTruthy(u, init);
      assert Prompts(reports)[..|reports| - 1] == Prompts(init);
      assert Completions(reports)[..|reports| - 1] == Completions(init);
      assert Totals(reports)[..|reports| - 1] == Totals(init);
    }
  }

  /** From zero, {prompt 5} then {completion 3} then {prompt 0} leaves {5, 3, 0}:
      the later zero does not clobber the stored 5. */
  lemma ZeroDoesNotClobberExample()
    ensures MergeAll(Zero, [UsageReport(Some(5), None, None),
                            UsageReport(None, Some(3), None),
                            UsageReport(Some(0), None, None)]) == Usage(5, 3, 0)
  {
    var reports := [UsageReport(Some(5), None, None), UsageReport(None, Some(3), None), UsageReport(Some(0), None, None)];
    assert reports[..2][..1] == reports[..1] && reports[..1][..0] == [];
    assert MergeAll(Zero, reports[..1]) == Usage(5, 0, 0);
    assert MergeAll(Zero, reports[..2]) == Usage(5, 3, 0);
  }

  /** The counters are not monotone: a smaller non-zero value replaces a larger stored one. */
  lemma SmallerValueReplacesLarger()
    ensures Merge(Usage(10, 10, 10), UsageReport(Some(3), None, None)).prompt == 3
  {
  }
}
