/**
 * Upload statistics and the upload request. Per-day success counts live in
 * localStorage under 'uploadStats' as an object from ISO dates to counts;
 * the panel shows today's count and the last seven days. The calendar and
 * the network are parameters: `keyOf(i)` is the ISO date of `i` days ago,
 * and the two fetches are given by their outcomes.
 */
module GitHub {
  import opened Wrappers
  import opened Text

  const StatsKey: string := "uploadStats"
  const Days: nat := 7

  type Stats = map<string, int>

  /** `stats[day] || 0`. */
  function Count(stats: Stats, day: string): int {
    if day in stats then stats[day] else 0
  }

  /** The stats after one more success on `day`. */
  function Record(stats: Stats, day: string): (r: Stats)
    ensures r.Keys == stats.Keys + {day}
  {
    stats[day := Count(stats, day) + 1]
  }

  /** `key.slice(5)`, which is 'MM-DD' for an ISO date and clamps on shorter text. */
  function Slice5(key: string): (r: string)
    ensures |key| >= 5 ==> key == key[..5] + r
    ensures |key| <= 5 ==> r == ""
  {
    if |key| <= 5 then "" else key[5..]
  }

  datatype Chart = Chart(labels: seq<string>, data: seq<int>)

  /** The chart for the seven days ending today, oldest first. */
  function WeekChart(stats: Stats, keyOf: nat -> string): (c: Chart)
    ensures |c.labels| == Days && |c.data| == Days
  {
    Chart(seq(Days, j requires 0 <= j < Days => Slice5(keyOf(Days - 1 - j))),
          seq(Days, j requires 0 <= j < Days => Count(stats, keyOf(Days - 1 - j))))
  }

  /** One success raises today's count by one and every other day's count not at all. */
  lemma RecordCountsOnce(stats: Stats, day: string)
    ensures Count(Record(stats, day), day) == Count(stats, day) + 1
    ensures forall d :: d != day ==> Count(Record(stats, day), d) == Count(stats, d)
  {
  }

  /** After a success the last bar of the week, today, has risen by one. */
  lemma RecordRaisesTodaysBar(stats: Stats, keyOf: nat -> string)
    ensures WeekChart(Record(stats, keyOf(0)), keyOf).data[Days - 1] == WeekChart(stats, keyOf).data[Days - 1] + 1
    ensures WeekChart(Record(stats, keyOf(0)), keyOf).labels == WeekChart(stats, keyOf).labels
  {
    var before, after := WeekChart(stats, keyOf), WeekChart(Record(stats, keyOf(0)), keyOf);
    assert before.data[Days - 1] == Count(stats, keyOf(0));
    assert after.data[Days - 1] == Count(Record(stats, keyOf(0)), keyOf(0));
  }

  /**
   * `n` recorded successes on one day give that day a count of `n` above
   * what it had.
   */
  function RecordTimes(stats: Stats, day: string, n: nat): Stats
    decreases n
  {
    if n == 0 then stats else Record(RecordTimes(stats, day, n - 1), day)
  }

  lemma {:induction false} RecordTimesCounts(stats: Stats, day: string, n: nat)
    ensures Count(RecordTimes(stats, day, n), day) == Count(stats, day) + n
    ensures forall d :: d != day ==> Count(RecordTimes(stats, day, n), d) == Count(stats, d)
    decreases n
  {
    if n > 0 {
      RecordTimesCounts(stats, day, n - 1);
    }
  }

  /** The four settings, all required non-blank once trimmed. */
  predicate Complete(owner: string, repo: string, path: string, token: string) {
    Trim(owner) != "" && Trim(repo) != "" && Trim(path) != "" && Trim(token) != ""
  }

  /** The contents endpoint of the file in the repository. */
  function ContentsUrl(owner: string, repo: string, path: string): string {
    "https://api.github.com/repos/" + owner + "/" + repo + "/contents/" + path
  }

  /** How the lookup of the existing file ended: a network error, or a response (and its `sha`, if the body had one). */
  datatype Lookup = LookupThrew | LookupResponse(ok: bool, sha: Option<string>)

  /** How the PUT ended. */
  datatype Put = PutThrew | PutResponse(ok: bool)

  /** The PUT the upload sends: the url, the `sha` field and the text before base64 encoding. */
  datatype PutRequest = PutRequest(url: string, sha: Option<string>, content: string)

  datatype Upload = Upload(success: bool, request: Option<PutRequest>)

  /** The `sha` the PUT carries: the existing file's, only when the lookup answered ok. */
  function ShaFrom(lookup: Lookup): Option<string> {
    if lookup.LookupResponse? && lookup.ok then lookup.sha else None
  }

  /** The upload with its inputs, the text and the two network outcomes. */
  function UploadOutcome(owner: string, repo: string, path: string, token: string, content: string, lookup: Lookup, put: Put): Upload {
    if !Complete(owner, repo, path, token) then Upload(false, None)
    else
      Upload(put.PutResponse? && put.ok,
        Some(PutRequest(ContentsUrl(Trim(owner), Trim(repo), Trim(path)), ShaFrom(lookup), content)))
  }

  /**
   * Incomplete settings send nothing and fail; complete ones always send the
   * PUT, to the trimmed path, and succeed exactly when it answers ok. A failed
   * or unreadable lookup only drops the `sha`: it never stops the upload.
   */
  lemma UploadCases(owner: string, repo: string, path: string, token: string, content: string, lookup: Lookup, put: Put)
    ensures var u := UploadOutcome(owner, repo, path, token, content, lookup, put);
      && (u.request.None? <==> !Complete(owner, repo, path, token))
      && (u.success <==> Complete(owner, repo, path, token) && put == PutResponse(true))
      && (u.request.Some? ==> u.request.value.url == ContentsUrl(Trim(owner), Trim(repo), Trim(path))
                              && u.request.value.content == content
                              && (u.request.value.sha.Some? ==> lookup == LookupResponse(true, u.request.value.sha))
                              && (lookup.LookupResponse? && lookup.ok ==> u.request.value.sha == lookup.sha))
  {
  }

  /** Any one of the four settings empty or all white space makes the settings incomplete. */
  lemma BlankSettingRejected(owner: string, repo: string, path: string, token: string)
    ensures (forall i :: 0 <= i < |owner| ==> IsSpace(owner[i])) ==> !Complete(owner, repo, path, token)
    ensures (forall i :: 0 <= i < |repo| ==> IsSpace(repo[i])) ==> !Complete(owner, repo, path, token)
    ensures (forall i :: 0 <= i < |path| ==> IsSpace(path[i])) ==> !Complete(owner, repo, path, token)
    ensures (forall i :: 0 <= i < |token| ==> IsSpace(token[i])) ==> !Complete(owner, repo, path, token)
  {
    TrimEmptyIffBlank(owner);
    TrimEmptyIffBlank(repo);
    TrimEmptyIffBlank(path);
    TrimEmptyIffBlank(token);
  }

  /** The refs of `useGitHub` and the stored statistics. */
  class Uploader {
    var repoOwner: string
    var repoName: string
    var filePath: string
    var token: string
    var todayCount: int
    var uploadChartData: Chart
    var stats: Stats

    constructor (stored: Stats)
      ensures repoOwner == "" && repoName == "" && filePath == "" && token == ""
      ensures todayCount == 0 && uploadChartData == Chart([], []) && stats == stored
    {
      repoOwner, repoName, filePath, token := "", "", "", "";
      todayCount := 0;
      uploadChartData := Chart([], []);
      stats := stored;
    }

    /** Recompute today's count and the weekly chart from the stored stats. */
    method UpdateStats(keyOf: nat -> string)
      modifies this
      ensures todayCount == Count(stats, keyOf(0))
      ensures uploadChartData == WeekChart(stats, keyOf)
      ensures stats == old(stats) && repoOwner == old(repoOwner) && repoName == old(repoName)
      ensures filePath == old(filePath) && token == old(token)
    {
      todayCount := Count(stats, keyOf(0));
      var labels: seq<string> := [];
      var data: seq<int> := [];
      var i: int := 6;
      while i >= 0
        invariant -1 <= i <= 6
        invariant |labels| == 6 - i && |data| == 6 - i
        invariant forall j :: 0 <= j < |labels| ==> labels[j] == Slice5(keyOf(6 - j))
        invariant forall j :: 0 <= j < |data| ==> data[j] == Count(stats, keyOf(6 - j))
        decreases i
      {
        var key := keyOf(i);
        labels := labels + [Slice5(key)];
        data := data + [Count(stats, key)];
        i := i - 1;
      }
      uploadChartData := Chart(labels, data);
    }

    method RecordUploadSuccess(keyOf: nat -> string)
      modifies this
      ensures stats == Record(old(stats), keyOf(0))
      ensures todayCount == Count(stats, keyOf(0)) && uploadChartData == WeekChart(stats, keyOf)
      ensures repoOwner == old(repoOwner) && repoName == old(repoName)
      ensures filePath == old(filePath) && token == old(token)
    {
      var todayDate := keyOf(0);
      stats := stats[todayDate := Count(stats, todayDate) + 1];
      UpdateStats(keyOf);
    }

    /** Upload `content`; the stats are recorded only when the PUT succeeds. */
    method UploadToGitHub(content: string, keyOf: nat -> string, lookup: Lookup, put: Put)
      returns (success: bool, request: Option<PutRequest>)
      modifies this
      ensures Upload(success, request) == UploadOutcome(old(repoOwner), old(repoName), old(filePath), old(token), content, lookup, put)
      ensures success ==> stats == Record(old(stats), keyOf(0)) && todayCount == Count(stats, keyOf(0))
                          && uploadChartData == WeekChart(stats, keyOf)
      ensures !success ==> stats == old(stats) && todayCount == old(todayCount) && uploadChartData == old(uploadChartData)
      ensures repoOwner == old(repoOwner) && repoName == old(repoName)
      ensures filePath == old(filePath) && token == old(token)
    {
      var owner := Trim(repoOwner);
      var repo := Trim(repoName);
      var path := Trim(filePath);
      var tokenValue := Trim(token);
      if owner == "" || repo == "" || path == "" || tokenValue == "" {
        return false, None;
      }
      var api := ContentsUrl(owner, repo, path);
      var sha: Option<string> := None;
      if lookup.LookupResponse? && lookup.ok {
        sha := lookup.sha;
      }
      request := Some(PutRequest(api, sha, content));
      if put.PutThrew? || !put.ok {
        return false, request;
      }
      RecordUploadSuccess(keyOf);
      success := true;
    }
  }
}
