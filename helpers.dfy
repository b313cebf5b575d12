/** `utils/helpers.py`: the column-label normaliser, the retry loop with
    exponential backoff, the file-name timestamp and the file stems of
    `save_dataframe`. */
module Helpers {
  import opened Wrappers
  import opened DateTimes
  import opened Frames
  import opened Effects
  import Config

  // ---------------------------------------------------------------------
  // clean_column_names

  /** `str.lower()` on one character (ASCII letters only). */
  function Lower(c: char): char {
    if 'A' <= c <= 'Z' then (c as int - 'A' as int + 'a' as int) as char else c
  }

  /** `s.lower()`. */
  function LowerAll(s: string): string
    decreases |s|
  {
    if s == [] then [] else [Lower(s[0])] + LowerAll(s[1..])
  }

  /** `s.replace(from, to)` for one-character strings. */
  function ReplaceChar(s: string, from: char, to: char): string
    decreases |s|
  {
    if s == [] then [] else [if s[0] == from then to else s[0]] + ReplaceChar(s[1..], from, to)
  }

  /** `col.lower().replace(' ', '_').replace('-', '_')`: the label keeps its
      length, and each character is rewritten on its own (lowercased, with
      `' '` and `'-'` turned into `'_'`). */
  function CleanLabel(col: string): (r: string)
    ensures |r| == |col|
    ensures forall i :: 0 <= i < |col| ==> r[i] == CleanChar(col[i])
  {
    var lowered := LowerAll(col);
    LowerAllAt(col);
    ReplaceCharAt(lowered, ' ', '_');
    ReplaceCharAt(ReplaceChar(lowered, ' ', '_'), '-', '_');
    ReplaceChar(ReplaceChar(lowered, ' ', '_'), '-', '_')
  }

  /** The new `df.columns` that `clean_column_names` assigns: one label per
      column, each as long as the label it replaces. */
  function CleanColumnNames(cols: seq<string>): (r: seq<string>)
    ensures |r| == |cols|
    ensures forall i :: 0 <= i < |cols| ==> |r[i]| == |cols[i]|
  {
    seq(|cols|, i requires 0 <= i < |cols| => CleanLabel(cols[i]))
  }

  /** `clean_column_names(df)`: the same frame with its labels rewritten. */
  function CleanFrame(df: Frame): (r: Frame)
    ensures r.rowCount == df.rowCount && |r.columns| == |df.columns|
  {
    Frame(CleanColumnNames(df.columns), df.rowCount)
  }

  /** What the three rewrites together do to one character. */
  function CleanChar(c: char): char {
    if c == ' ' || c == '-' then '_' else Lower(c)
  }

  /** A label the normaliser leaves alone: no blank, no hyphen, no ASCII
      capital. */
  predicate IsCleanLabel(s: string) {
    forall i :: 0 <= i < |s| ==> s[i] != ' ' && s[i] != '-' && !('A' <= s[i] <= 'Z')
  }

  lemma {:induction false} LowerAllAt(s: string)
    ensures |LowerAll(s)| == |s|
    ensures forall i :: 0 <= i < |s| ==> LowerAll(s)[i] == Lower(s[i])
    decreases |s|
  {
    if s != [] {
      LowerAllAt(s[1..]);
    }
  }

  lemma {:induction false} ReplaceCharAt(s: string, from: char, to: char)
    ensures |ReplaceChar(s, from, to)| == |s|
    ensures forall i :: 0 <= i < |s| ==>
              ReplaceChar(s, from, to)[i] == if s[i] == from then to else s[i]
    decreases |s|
  {
    if s != [] {
      ReplaceCharAt(s[1..], from, to);
    }
  }

  /** After normalising, a label has no blank, no hyphen and no capital. */
  lemma CleanLabelIsClean(s: string)
    ensures IsCleanLabel(CleanLabel(s))
  {
  }

  /** A label without blanks, hyphens or capitals is left as it is. */
  lemma CleanLabelKeepsClean(s: string)
    requires IsCleanLabel(s)
    ensures CleanLabel(s) == s
  {
  }

  /** The labels keep their number and order; the i-th output label is the
      i-th input label rewritten character by character, and it is clean. */
  lemma CleanColumnNamesSpec(cols: seq<string>)
    ensures |CleanColumnNames(cols)| == |cols|
    ensures forall i :: 0 <= i < |cols| ==>
              && |CleanColumnNames(cols)[i]| == |cols[i]|
              && IsCleanLabel(CleanColumnNames(cols)[i])
              && forall j :: 0 <= j < |cols[i]| ==> CleanColumnNames(cols)[i][j] == CleanChar(cols[i][j])
  {
    forall i | 0 <= i < |cols| ensures IsCleanLabel(CleanColumnNames(cols)[i]) {
      CleanLabelIsClean(cols[i]);
    }
  }

  /** Normalising twice is normalising once. */
  lemma CleanColumnNamesIdempotent(cols: seq<string>)
    ensures CleanColumnNames(CleanColumnNames(cols)) == CleanColumnNames(cols)
  {
    forall i | 0 <= i < |cols|
      ensures CleanLabel(CleanLabel(cols[i])) == CleanLabel(cols[i])
    {
      CleanLabelIsClean(cols[i]);
      CleanLabelKeepsClean(CleanLabel(cols[i]));
    }
  }

  /** Two different labels can normalise to the same one; the list then
      holds that label twice. */
  lemma CleanLabelIs(s: string, t: string)
    requires |s| == |t|
    requires forall i :: 0 <= i < |s| ==> CleanChar(s[i]) == t[i]
    ensures CleanLabel(s) == t
  {
  }

  lemma CleanColumnNamesCollide()
    ensures CleanColumnNames(["Line Name", "line-name"]) == ["line_name", "line_name"]
  {
    CleanLineName();
    CleanColumnNamesPair("Line Name", "line-name");
  }

  lemma CleanLineName()
    ensures CleanLabel("Line Name") == "line_name"
    ensures CleanLabel("line-name") == "line_name"
  {
    CleanSpaced();
    CleanHyphenated();
  }

  lemma CleanSpaced()
    ensures CleanLabel("Line Name") == "line_name"
  {
    var s := "Line Name";
    assert s == ['L'] + "ine" + [' '] + ['N'] + "ame";
    CleanLabelIs(s, "line_name");
  }

  lemma CleanHyphenated()
    ensures CleanLabel("line-name") == "line_name"
  {
    CleanLabelIs("line-name", "line_name");
  }

  lemma CleanColumnNamesPair(a: string, b: string)
    ensures CleanColumnNames([a, b]) == [CleanLabel(a), CleanLabel(b)]
  {
  }

  // ---------------------------------------------------------------------
  // retry_on_fail

  /** What one call of `func()` does: return a value or raise. */
  datatype Outcome<+T, +E> = Ok(value: T) | Fail(error: E)

  /** How `retry_on_fail` ends: it returns `func()`'s value, re-raises the
      last exception, (with no attempts) falls off the loop and returns
      `None`, or raises `ValueError` from `time.sleep` when the wait to take
      after a failed call is negative. */
  datatype RetryResult<+T, +E> = Returned(value: T) | Raised(error: E) | NotRun | SleepRejected

  function Pow2(k: nat): nat {
    if k == 0 then 1 else 2 * Pow2(k - 1)
  }

  /** The first `n` waits of the schedule `delay, 2·delay, 4·delay, ...`. */
  function Backoff(delay: int, n: nat): seq<int> {
    if n == 0 then [] else Backoff(delay, n - 1) + [delay * Pow2(n - 1)]
  }

  function Sum(s: seq<int>): int {
    if s == [] then 0 else Sum(s[..|s| - 1]) + s[|s| - 1]
  }

  /** What `retry_on_fail(func, maxAttempts, delay)` does when the i-th call
      of `func` (from 0) would have outcome `call(i)`: `calls` calls are made,
      `sleeps` are the `time.sleep` arguments in order. */
  ghost predicate RetryBehaviour<T, E>(call: nat -> Outcome<T, E>, maxAttempts: int, delay: int,
                                       r: RetryResult<T, E>, calls: nat, sleeps: seq<int>)
  {
    // no attempt at all: the loop body never runs
    && (maxAttempts <= 0 <==> r.NotRun?)
    && (maxAttempts <= 0 ==> calls == 0)
    && (maxAttempts > 0 ==> 1 <= calls <= maxAttempts)
    // a negative delay: the first failed call that is not the last one
    // makes `time.sleep` raise, so no second call is made
    && (delay < 0 ==> calls <= 1)
    && (r.SleepRejected? <==> delay < 0 && maxAttempts > 1 && call(0).Fail?)
    // every call but the last one raised
    && (forall i :: 0 <= i < calls - 1 ==> call(i).Fail?)
    // the last call's value is returned unchanged ...
    && (r.Returned? ==> call(calls - 1) == Ok(r.value))
    // ... or the budget is used up and the last exception propagates
    && (r.Raised? ==> calls == maxAttempts && call(calls - 1) == Fail(r.error))
    // one wait after each failed call but the last call
    && sleeps == Backoff(delay, if calls == 0 then 0 else calls - 1)
  }

  method Retry<T, E>(call: nat -> Outcome<T, E>, maxAttempts: int, delay: int)
    returns (r: RetryResult<T, E>, calls: nat, sleeps: seq<int>)
    ensures RetryBehaviour(call, maxAttempts, delay, r, calls, sleeps)
  {
    r, calls, sleeps := NotRun, 0, [];
    var wait := delay;
    var attempt := 0;
    while attempt < maxAttempts
      invariant attempt == 0 || attempt < maxAttempts
      invariant calls == attempt
      invariant wait == delay * Pow2(attempt)
      invariant sleeps == Backoff(delay, attempt)
      invariant forall i :: 0 <= i < attempt ==> call(i).Fail?
      invariant delay < 0 ==> attempt == 0
    {
      calls := calls + 1;
      match call(attempt)
      case Ok(v) =>
        r := Returned(v);
        return;
      case Fail(e) =>
        if attempt == maxAttempts - 1 {
          r := Raised(e);
          return;
        }
        if wait < 0 {
          r := SleepRejected;
          return;
        }
        sleeps := sleeps + [wait];
        assert delay * Pow2(attempt + 1) == wait * 2;
        wait := wait * 2;
      attempt := attempt + 1;
    }
  }

  lemma {:induction false} BackoffAt(delay: int, n: nat)
    ensures |Backoff(delay, n)| == n
    ensures forall j :: 0 <= j < n ==> Backoff(delay, n)[j] == delay * Pow2(j)
  {
    if n > 0 {
      BackoffAt(delay, n - 1);
    }
  }

  /** Waiting `delay, 2·delay, ..., 2^(n-1)·delay` takes `delay·(2^n - 1)`. */
  lemma {:induction false} BackoffSum(delay: int, n: nat)
    ensures Sum(Backoff(delay, n)) == delay * (Pow2(n) - 1)
  {
    if n > 0 {
      BackoffSum(delay, n - 1);
      var b := Backoff(delay, n);
      assert b[..|b| - 1] == Backoff(delay, n - 1);
      assert Pow2(n) == 2 * Pow2(n - 1);
    }
  }

  /** The wait at index j is `delay·2^j`: waits only between a failed
      call and the next one, none after a success or after the last call. */
  lemma RetrySleeps<T, E>(call: nat -> Outcome<T, E>, maxAttempts: int, delay: int,
                          r: RetryResult<T, E>, calls: nat, sleeps: seq<int>)
    requires RetryBehaviour(call, maxAttempts, delay, r, calls, sleeps)
    ensures |sleeps| == if calls == 0 then 0 else calls - 1
    ensures forall j :: 0 <= j < |sleeps| ==> sleeps[j] == delay * Pow2(j)
    ensures forall k :: 0 <= k < |sleeps| ==> call(k).Fail?
  {
    BackoffAt(delay, if calls == 0 then 0 else calls - 1);
  }

  /** A call that fails `k` times and then succeeds, with a budget above `k`,
      gives the success value after `k + 1` calls and `k` waits. */
  lemma RetryFirstSuccess<T, E>(call: nat -> Outcome<T, E>, maxAttempts: int, delay: int,
                                r: RetryResult<T, E>, calls: nat, sleeps: seq<int>, k: nat)
    requires RetryBehaviour(call, maxAttempts, delay, r, calls, sleeps)
    requires k < maxAttempts
    requires k == 0 || delay >= 0
    requires forall i :: 0 <= i < k ==> call(i).Fail?
    requires call(k).Ok?
    ensures r == Returned(call(k).value)
    ensures calls == k + 1
    ensures sleeps == Backoff(delay, k)
    ensures Sum(sleeps) == delay * (Pow2(k) - 1)
  {
    var last: nat := calls - 1;
    assert k < last ==> call(k).Fail?;
    assert last < k ==> call(last).Fail? && calls == maxAttempts;
    BackoffSum(delay, k);
  }

  /** A fetch called as `retry_on_fail(lambda: fetch(), max_attempts=2)`,
      with `delay` at its default of 1: the fetchers catch transport errors
      themselves and return `None`, so the first attempt never raises. It runs once, issues the request of the first
      fetch (if any) and nothing more, and its answer is the result. */
  method RetriedFetch<T>(fetch: nat -> Exchange<T>) returns (result: Option<T>, requests: seq<Request>)
    ensures result == fetch(0).result
    ensures requests == Issued(fetch(0))
  {
    var call: nat -> Outcome<Option<T>, ()> := (i: nat) => Ok(fetch(i).result);
    var r, calls, sleeps := Retry(call, 2, 1);
    RetryFirstSuccess(call, 2, 1, r, calls, sleeps, 0);
    result := r.value;
    requests := RequestsMade(fetch, calls);
    assert requests == Issued(fetch(0));
  }

  /** When every call fails, `func` is called exactly `maxAttempts` times,
      the last exception propagates, and the waits add up to
      `delay·(2^(maxAttempts-1) - 1)`. */
  lemma RetryAllFail<T, E>(call: nat -> Outcome<T, E>, maxAttempts: int, delay: int,
                           r: RetryResult<T, E>, calls: nat, sleeps: seq<int>)
    requires RetryBehaviour(call, maxAttempts, delay, r, calls, sleeps)
    requires maxAttempts > 0 && (maxAttempts == 1 || delay >= 0)
    requires forall i :: 0 <= i < maxAttempts ==> call(i).Fail?
    ensures r == Raised(call(maxAttempts - 1).error)
    ensures calls == maxAttempts
    ensures Sum(sleeps) == delay * (Pow2(maxAttempts - 1) - 1)
  {
    assert call(calls - 1).Fail?;
    BackoffSum(delay, maxAttempts - 1);
  }

  /** With a negative delay and room for a retry, a failing first call ends
      the loop: `time.sleep` raises `ValueError` before the second call, and
      no wait is taken. */
  lemma RetryNegativeDelay<T, E>(call: nat -> Outcome<T, E>, maxAttempts: int, delay: int,
                                 r: RetryResult<T, E>, calls: nat, sleeps: seq<int>)
    requires RetryBehaviour(call, maxAttempts, delay, r, calls, sleeps)
    requires delay < 0 && maxAttempts > 1
    ensures call(0).Fail? ==> r == SleepRejected && calls == 1 && sleeps == []
    ensures call(0).Ok? ==> r == Returned(call(0).value) && calls == 1 && sleeps == []
  {
  }

  // ---------------------------------------------------------------------
  // timestamp_now

  /** `now.strftime("%Y%m%d_%H%M%S")`. `%Y` is taken as the year without
      padding, as glibc renders it for older CPython releases; newer ones pad
      it to four digits, and the two agree for four-digit years
      (`TimestampPadded`). Such a year gives fifteen characters with `'_'`
      between the date and the time. */
  function TimestampNow(now: DateTime): (s: string)
    requires now.Valid()
    ensures 1000 <= now.year ==> |s| == 15 && s[8] == '_'
  {
    var s := Decimal(now.year)
             + (Padded(now.month, 2) + (Padded(now.day, 2)
             + ("_" + (Padded(now.hour, 2) + (Padded(now.minute, 2) + Padded(now.second, 2))))));
    if 1000 <= now.year then DecimalIsPadded(now.year, 4); s else s
  }

  /** With a four-digit year, the same string with every field padded. */
  lemma TimestampPadded(now: DateTime)
    requires now.Valid() && 1000 <= now.year
    ensures TimestampNow(now) ==
              Padded(now.year, 4)
              + (Padded(now.month, 2) + (Padded(now.day, 2)
              + ("_" + (Padded(now.hour, 2) + (Padded(now.minute, 2) + Padded(now.second, 2))))))
  {
    DecimalIsPadded(now.year, 4);
  }

  /** Fifteen characters: eight digits, `'_'`, six digits. */
  lemma TimestampShape(now: DateTime)
    requires now.Valid() && 1000 <= now.year
    ensures |TimestampNow(now)| == 15
    ensures TimestampNow(now)[8] == '_'
    ensures forall i :: 0 <= i < 15 && i != 8 ==> IsDigit(TimestampNow(now)[i])
  {
    TimestampPadded(now);
  }

  /** For four-digit years, string order of the timestamps is chronological
      order, and equal timestamps mean the same second. */
  lemma TimestampOrder(a: DateTime, b: DateTime)
    requires a.Valid() && 1000 <= a.year
    requires b.Valid() && 1000 <= b.year
    ensures Less(TimestampNow(a), TimestampNow(b)) <==> Before(a, b)
    ensures TimestampNow(a) == TimestampNow(b) <==> SameSecond(a, b)
  {
    TimestampPadded(a);
    TimestampPadded(b);
    var sa := Padded(a.minute, 2) + Padded(a.second, 2);
    var sb := Padded(b.minute, 2) + Padded(b.second, 2);
    BlockLess(a.second, b.second, 2, [], []);
    assert Padded(a.second, 2) + [] == Padded(a.second, 2);
    assert Padded(b.second, 2) + [] == Padded(b.second, 2);
    LessIrreflexive([]);
    BlockLess(a.minute, b.minute, 2, Padded(a.second, 2), Padded(b.second, 2));
    var ha, hb := Padded(a.hour, 2) + sa, Padded(b.hour, 2) + sb;
    BlockLess(a.hour, b.hour, 2, sa, sb);
    LessConcat("_", ha, "_", hb);
    ConcatEqual("_", ha, "_", hb);
    LessIrreflexive("_");
    var da, db := Padded(a.day, 2) + ("_" + ha), Padded(b.day, 2) + ("_" + hb);
    BlockLess(a.day, b.day, 2, "_" + ha, "_" + hb);
    var ma, mb := Padded(a.month, 2) + da, Padded(b.month, 2) + db;
    BlockLess(a.month, b.month, 2, da, db);
    BlockLess(a.year, b.year, 4, ma, mb);
  }

  /** Names `prefix + timestamp + suffix` sort in the order of their
      timestamps: the greatest name is the latest file. */
  lemma LatestFileName(prefix: string, suffix: string, a: DateTime, b: DateTime)
    requires a.Valid() && 1000 <= a.year
    requires b.Valid() && 1000 <= b.year
    ensures Less(prefix + TimestampNow(a) + suffix, prefix + TimestampNow(b) + suffix)
            <==> Before(a, b)
  {
    var ta, tb := TimestampNow(a), TimestampNow(b);
    TimestampShape(a);
    TimestampShape(b);
    TimestampOrder(a, b);
    assert prefix + ta + suffix == prefix + (ta + suffix);
    assert prefix + tb + suffix == prefix + (tb + suffix);
    LessConcat(prefix, ta + suffix, prefix, tb + suffix);
    LessIrreflexive(prefix);
    LessConcat(ta, suffix, tb, suffix);
    LessIrreflexive(suffix);
  }

  // ---------------------------------------------------------------------
  // save_dataframe

  /** The file stem: `name_<timestamp>` when `timestamp` is set, else `name`. */
  function DataFrameStem(name: string, timestamp: bool, now: DateTime): (stem: string)
    requires now.Valid()
    ensures !timestamp ==> stem == name
    ensures timestamp ==> |stem| == |name| + 1 + |TimestampNow(now)|
    ensures timestamp ==> stem[..|name| + 1] == name + "_"
                          && stem[|name| + 1..] == TimestampNow(now)
  {
    if timestamp then name + "_" + TimestampNow(now) else name
  }

  /** `save_dataframe(df, name, timestamp)`: writes the frame as CSV and as a
      pickle under the same stem in `PROCESSED_DATA_DIR` and returns both
      paths. */
  method SaveDataFrame(df: Frame, name: string, timestamp: bool, env: Config.Environment, now: DateTime)
    returns (csvPath: string, pklPath: string, writes: seq<Artifact>)
    requires now.Valid()
    ensures |csvPath| == |pklPath| >= 4
    ensures csvPath[..|csvPath| - 4] == pklPath[..|pklPath| - 4]
            == Join(Config.ProcessedDataDir(env), DataFrameStem(name, timestamp, now))
    ensures csvPath[|csvPath| - 4..] == ".csv" && pklPath[|pklPath| - 4..] == ".pkl"
    ensures writes == [Artifact(csvPath, Csv(df)), Artifact(pklPath, Pickle(df))]
  {
    var processedDir := Config.ProcessedDataDir(env);
    var stem := DataFrameStem(name, timestamp, now);
    csvPath := Join(processedDir, stem + ".csv");
    writes := [Artifact(csvPath, Csv(df))];
    pklPath := Join(processedDir, stem + ".pkl");
    writes := writes + [Artifact(pklPath, Pickle(df))];
    assert csvPath == Join(processedDir, stem) + ".csv";
    assert pklPath == Join(processedDir, stem) + ".pkl";
  }
}
