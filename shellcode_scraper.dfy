/**
 * The Exploit-DB shellcode side of the pipeline: each row of
 * `files_shellcodes.csv` is resolved against the repository's files,
 * decoded as UTF-8 with a Latin-1 fallback, and projected onto a record;
 * the row loop applies the platform filter, the limit and the error count.
 */
module ShellcodeScraper {
  import opened Wrappers
  import opened Text
  import opened Limits

  // ---------------------------------------------------------------------
  // Rows and files
  // ---------------------------------------------------------------------

  /**
   * A row as `csv.DictReader` yields it: one entry per header column; a
   * short row maps its missing columns to `None`.
   */
  type Row = map<string, Option<string>>

  /** `row.get(key)`: `None` both for an absent column and for a short row. */
  function Get(row: Row, key: string): Option<string>
  {
    if key in row then row[key] else None
  }

  /** What opening a file with one encoding and calling `read()` gives. */
  datatype ReadOutcome = Decoded(text: string) | DecodeError | OsError

  /** A file of the repository, read once as UTF-8 and once as Latin-1. */
  datatype FileEntry = FileEntry(utf8: ReadOutcome, latin1: ReadOutcome)

  /** The existing files, keyed by their path relative to the repository. */
  type FileSystem = map<string, FileEntry>

  /** The dictionary `_process_shellcode` returns. */
  datatype ShellcodeRecord = ShellcodeRecord(
    id: Option<string>,
    description: Option<string>,
    date: Option<string>,
    author: Option<string>,
    platform: Option<string>,
    shellcodeType: Option<string>,
    content: string,
    source: string)

  const SourceName := "exploit-db"

  /** The record built from the row's columns once the file's text is known. */
  function RowRecord(row: Row, content: string): ShellcodeRecord {
    ShellcodeRecord(Get(row, "id"), Get(row, "description"), Get(row, "date"),
                    Get(row, "author"), Get(row, "platform"), Get(row, "type"),
                    content, SourceName)
  }

  /**
   * `_process_shellcode`. A missing `file` column makes `repo_dir / None`
   * raise `TypeError`; a path that does not exist yields `None`; a UTF-8
   * decode error falls back to Latin-1, and any failure of the fallback
   * yields `None`; any other failure of the UTF-8 read propagates.
   */
  function ProcessShellcode(row: Row, fs: FileSystem): Result<Option<ShellcodeRecord>> {
    var file := Get(row, "file");
    if file.None? then Raised("TypeError")
    else if file.value !in fs then Ok(None)
    else
      var entry := fs[file.value];
      if entry.utf8.Decoded? then Ok(Some(RowRecord(row, entry.utf8.text)))
      else if entry.utf8.OsError? then Raised("OSError")
      else if entry.latin1.Decoded? then Ok(Some(RowRecord(row, entry.latin1.text)))
      else Ok(None)
  }

  /**
   * Every outcome of `_process_shellcode`, stated as conditions on the row
   * and the file system, and the record's fields: the six columns copied
   * unchanged, the text the successful read produced, and the source tag.
   */
  lemma ProcessShellcodeOutcome(row: Row, fs: FileSystem)
    ensures var r := ProcessShellcode(row, fs);
      var file := Get(row, "file");
      && (r.Raised? <==> file.None? || (file.value in fs && fs[file.value].utf8.OsError?))
      && (r == Ok(None) <==>
            file.Some? && (file.value !in fs
                           || (fs[file.value].utf8.DecodeError? && !fs[file.value].latin1.Decoded?)))
      && (r.Ok? && r.value.Some? ==>
            var rec := r.value.value;
            var entry := fs[file.value];
            && file.Some? && file.value in fs
            && rec.id == Get(row, "id") && rec.description == Get(row, "description")
            && rec.date == Get(row, "date") && rec.author == Get(row, "author")
            && rec.platform == Get(row, "platform") && rec.shellcodeType == Get(row, "type")
            && rec.source == "exploit-db"
            && (entry.utf8.Decoded? ==> rec.content == entry.utf8.text)
            && (!entry.utf8.Decoded? ==> entry.utf8.DecodeError? && rec.content == entry.latin1.text))
  {
  }

  // ---------------------------------------------------------------------
  // The row loop
  // ---------------------------------------------------------------------

  /** `if platform and ...`: the filter applies only to a non-empty string. */
  predicate FilterActive(platform: Option<string>) {
    platform.Some? && platform.value != ""
  }

  /** `row.get('platform', '')`: the default applies only to an absent column. */
  function PlatformColumn(row: Row): Option<string> {
    if "platform" in row then row["platform"] else Some("")
  }

  /** What one row contributes to the loop. */
  datatype RowOutcome =
    | FilteredOut                                  // `continue` of the platform filter
    | Aborted                                      // `None.lower()` raised outside the inner `try`
    | Failed                                       // `_process_shellcode` raised
    | Dropped                                      // `_process_shellcode` returned `None`
    | Yielded(shellcode: ShellcodeRecord)

  /** The platform filter, then `_process_shellcode`, for one row. */
  function Classify(row: Row, platform: Option<string>, fs: FileSystem): RowOutcome {
    if FilterActive(platform) && PlatformColumn(row).None? then Aborted
    else if FilterActive(platform) && !Contains(Lower(PlatformColumn(row).value), Lower(platform.value)) then FilteredOut
    else
      var r := ProcessShellcode(row, fs);
      if r.Raised? then Failed
      else if r.value.None? then Dropped
      else Yielded(r.value.value)
  }

  /**
   * The filter: without an active filter no row is filtered out or aborts
   * the parse; with one, a row whose platform cell is present is filtered
   * out exactly when the lowercased filter does not occur in its
   * lowercased platform, and a present column holding `None` aborts.
   */
  lemma ClassifyFilter(row: Row, platform: Option<string>, fs: FileSystem)
    ensures var o := Classify(row, platform, fs);
      && (!FilterActive(platform) ==> !o.FilteredOut? && !o.Aborted?)
      && (FilterActive(platform) ==>
            && (o.Aborted? <==> "platform" in row && row["platform"].None?)
            && ("platform" in row && row["platform"].Some? ==>
                  (o.FilteredOut? <==> !exists k :: OccursAt(Lower(row["platform"].value), Lower(platform.value), k)))
            && ("platform" !in row ==> o.FilteredOut?))
      && (o.Yielded? ==> ProcessShellcode(row, fs) == Ok(Some(o.shellcode)))
      && (o.Failed? ==> ProcessShellcode(row, fs).Raised?)
      && (o.Dropped? ==> ProcessShellcode(row, fs) == Ok(None))
  {
    if FilterActive(platform) && "platform" !in row {
      assert Lower(platform.value) != [];
      assert !exists k :: OccursAt(Lower(""), Lower(platform.value), k);
    }
  }

  function Outcomes(rows: seq<Row>, platform: Option<string>, fs: FileSystem): seq<RowOutcome>
  {
    seq(|rows|, k requires 0 <= k < |rows| => Classify(rows[k], platform, fs))
  }

  /** The loop's list, the `total_processed` and `errors` counters, and whether the parse raised. */
  datatype ParseState = ParseState(shellcodes: seq<ShellcodeRecord>, processed: nat, errors: nat, aborted: bool)

  /** The counters and the list after a row that does not abort the parse. */
  function Step(st: ParseState, o: RowOutcome): ParseState {
    if o.Failed? then st.(errors := st.errors + 1)
    else if o.Yielded? then st.(shellcodes := st.shellcodes + [o.shellcode], processed := st.processed + 1)
    else st
  }

  /** The `for row in reader` loop over the row outcomes, with its `limit` check after each appended record. */
  function TakeShellcodes(os: seq<RowOutcome>, limit: Option<int>, st: ParseState): ParseState {
    if os == [] then st
    else if os[0].Aborted? then st.(aborted := true)
    else
      var st' := Step(st, os[0]);
      if os[0].Yielded? && Capped(limit, st'.processed) then st' else TakeShellcodes(os[1..], limit, st')
  }

  /** The records among the outcomes, in order. */
  function Records(os: seq<RowOutcome>): seq<ShellcodeRecord> {
    if os == [] then []
    else (if os[0].Yielded? then [os[0].shellcode] else []) + Records(os[1..])
  }

  /** The number of rows whose processing raised. */
  function Failures(os: seq<RowOutcome>): nat {
    if os == [] then 0 else (if os[0].Failed? then 1 else 0) + Failures(os[1..])
  }

  /** No row aborts the parse. */
  predicate NoAbort(os: seq<RowOutcome>) {
    forall k :: 0 <= k < |os| ==> !os[k].Aborted?
  }

  /**
   * Each appended record is counted once; a positive limit not yet reached
   * is never overshot; without an aborting row the parse does not raise.
   */
  lemma {:induction false} TakeShellcodesCount(os: seq<RowOutcome>, limit: Option<int>, st: ParseState)
    ensures var r := TakeShellcodes(os, limit, st);
      && st.processed <= r.processed && st.errors <= r.errors
      && |r.shellcodes| == |st.shellcodes| + (r.processed - st.processed)
      && (NoAbort(os) ==> r.aborted == st.aborted)
      && (PositiveCap(limit) && st.processed < limit.value ==> r.processed <= limit.value)
  {
    if os != [] {
      if os[0].Aborted? {
        assert !NoAbort(os);
      } else {
        var st' := Step(st, os[0]);
        assert NoAbort(os) ==> NoAbort(os[1..]) by {
          assert forall k :: 0 < k < |os| ==> os[k] == os[1..][k - 1];
        }
        if !(os[0].Yielded? && Capped(limit, st'.processed)) {
          TakeShellcodesCount(os[1..], limit, st');
        }
      }
    }
  }

  /**
   * `r` is what the loop leaves after consuming the first `k` outcomes:
   * their records appended, their failures counted, none of them
   * aborting; it stopped short of the end only at an aborting row or at a
   * record that reached the limit.
   */
  ghost predicate Consumed(os: seq<RowOutcome>, limit: Option<int>, st: ParseState, r: ParseState, k: int) {
    && 0 <= k <= |os|
    && r.shellcodes == st.shellcodes + Records(os[..k])
    && r.errors == st.errors + Failures(os[..k])
    && NoAbort(os[..k])
    && (r.aborted ==> k < |os| && os[k].Aborted?)
    && (k < |os| && !r.aborted ==> Capped(limit, r.processed))
  }

  lemma ConsumedStep(os: seq<RowOutcome>, limit: Option<int>, st: ParseState, r: ParseState, k: int)
    requires os != [] && !os[0].Aborted?
    requires Consumed(os[1..], limit, Step(st, os[0]), r, k)
    ensures Consumed(os, limit, st, r, k + 1)
  {
    var q := os[..k + 1];
    assert q[0] == os[0] && q[1..] == os[1..][..k];
    assert NoAbort(q) by {
      assert forall j :: 0 < j < |q| ==> q[j] == os[1..][..k][j - 1];
    }
    assert k < |os[1..]| ==> os[1..][k] == os[k + 1];
  }

  /** The loop consumes a prefix of the rows (see `Consumed`). */
  lemma {:induction false} TakeShellcodesPrefix(os: seq<RowOutcome>, limit: Option<int>, st: ParseState)
    requires !st.aborted
    ensures exists k :: Consumed(os, limit, st, TakeShellcodes(os, limit, st), k)
  {
    var r := TakeShellcodes(os, limit, st);
    if os == [] || os[0].Aborted? {
      assert os[..0] == [];
      assert Consumed(os, limit, st, r, 0);
    } else {
      var st' := Step(st, os[0]);
      if os[0].Yielded? && Capped(limit, st'.processed) {
        assert os[..1] == [os[0]] && os[..1][1..] == [];
        assert Records(os[..1]) == [os[0].shellcode] + Records(os[..1][1..]);
        assert Failures(os[..1]) == 0 + Failures(os[..1][1..]);
        assert Consumed(os, limit, st, r, 1);
      } else {
        TakeShellcodesPrefix(os[1..], limit, st');
        var k' :| Consumed(os[1..], limit, st', r, k');
        ConsumedStep(os, limit, st, r, k');
      }
    }
  }

  /**
   * With no cap (`limit` None or 0) and no aborting row, every row is
   * consumed: all records are kept in row order and every failure counted.
   */
  lemma {:induction false} TakeShellcodesUncapped(os: seq<RowOutcome>, limit: Option<int>, st: ParseState)
    requires limit.None? || limit.value == 0
    requires NoAbort(os)
    ensures TakeShellcodes(os, limit, st)
            == ParseState(st.shellcodes + Records(os), st.processed + |Records(os)|, st.errors + Failures(os), st.aborted)
  {
    if os != [] {
      assert NoAbort(os[1..]) by {
        assert forall k :: 0 <= k < |os[1..]| ==> os[1..][k] == os[k + 1];
      }
      assert !os[0].Aborted?;
      var st' := Step(st, os[0]);
      assert TakeShellcodes(os, limit, st) == TakeShellcodes(os[1..], limit, st');
      TakeShellcodesUncapped(os[1..], limit, st');
      var head := if os[0].Yielded? then [os[0].shellcode] else [];
      assert Records(os) == head + Records(os[1..]);
      assert st'.shellcodes == st.shellcodes + head;
      assert st.shellcodes + Records(os) == st'.shellcodes + Records(os[1..]);
    }
  }

  /** Without an active platform filter no row aborts the parse. */
  lemma InactiveFilterNoAbort(rows: seq<Row>, platform: Option<string>, fs: FileSystem)
    requires !FilterActive(platform)
    ensures NoAbort(Outcomes(rows, platform, fs))
  {
  }

  /** `ShellcodeScraper`: the `stats` counters of one scraper object. */
  class ShellcodeScraper {
    var totalProcessed: nat
    var totalSaved: nat
    var errors: nat

    constructor ()
      ensures totalProcessed == 0 && totalSaved == 0 && errors == 0
    {
      totalProcessed := 0;
      totalSaved := 0;
      errors := 0;
    }

    /**
     * The body of the row loop: the platform filter, then `_process_shellcode`
     * inside its `try`, for one row. It reports whether the filter raised out
     * of the loop and whether the `limit` check breaks it; otherwise the list
     * and the counters move on by one `Step`.
     */
    method HandleRow(shellcodes0: seq<ShellcodeRecord>, row: Row, fs: FileSystem, limit: Option<int>, platform: Option<string>)
      returns (shellcodes: seq<ShellcodeRecord>, aborted: bool, stop: bool)
      modifies this
      ensures var o := Classify(row, platform, fs);
        && aborted == o.Aborted?
        && (!aborted ==>
              ParseState(shellcodes, totalProcessed, errors, false)
              == Step(ParseState(shellcodes0, old(totalProcessed), old(errors), false), o))
        && (aborted ==> totalProcessed == old(totalProcessed) && errors == old(errors))
        && stop == (o.Yielded? && Capped(limit, totalProcessed))
      ensures totalSaved == old(totalSaved)
    {
      shellcodes, aborted, stop := shellcodes0, false, false;
      if platform.Some? && platform.value != "" {
        var cell := if "platform" in row then row["platform"] else Some("");
        if cell.None? {
          return shellcodes, true, false;
        }
        if !Contains(Lower(cell.value), Lower(platform.value)) {
          return;
        }
      }
      var shellcodeData := ProcessShellcode(row, fs);
      if shellcodeData.Raised? {
        errors := errors + 1;
      } else if shellcodeData.value.Some? {
        shellcodes := shellcodes + [shellcodeData.value.value];
        totalProcessed := totalProcessed + 1;
        stop := Capped(limit, totalProcessed);
      }
    }

    /**
     * `parse_shellcodes`. Without `files_shellcodes.csv` it raises before
     * reading a row. Otherwise it runs `TakeShellcodes` over the rows; a
     * row that aborts re-raises out of the parse, and the counters keep
     * what the rows before it added.
     */
    method ParseShellcodes(csvExists: bool, rows: seq<Row>, fs: FileSystem, limit: Option<int>, platform: Option<string>)
      returns (r: Result<seq<ShellcodeRecord>>)
      modifies this
      ensures !csvExists ==>
        r == Raised("FileNotFoundError") && totalProcessed == old(totalProcessed) && errors == old(errors)
      ensures csvExists ==>
        var st := TakeShellcodes(Outcomes(rows, platform, fs), limit,
                                 ParseState([], old(totalProcessed), old(errors), false));
        && totalProcessed == st.processed && errors == st.errors
        && r == (if st.aborted then Raised("AttributeError") else Ok(st.shellcodes))
      ensures totalSaved == old(totalSaved)
    {
      if !csvExists {
        return Raised("FileNotFoundError");
      }
      ghost var os := Outcomes(rows, platform, fs);
      ghost var st0 := ParseState([], totalProcessed, errors, false);
      var shellcodes := [];
      for i := 0 to |rows|
        invariant TakeShellcodes(os[i..], limit, ParseState(shellcodes, totalProcessed, errors, false))
                  == TakeShellcodes(os, limit, st0)
        invariant totalSaved == old(totalSaved)
      {
        assert os[i..][0] == Classify(rows[i], platform, fs) && os[i..][1..] == os[i + 1..];
        var aborted, stop;
        shellcodes, aborted, stop := HandleRow(shellcodes, rows[i], fs, limit, platform);
        if aborted {
          return Raised("AttributeError");
        }
        if stop {
          break;
        }
      }
      r := Ok(shellcodes);
    }
  }
}
