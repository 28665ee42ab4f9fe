/**
 * The log buffer: entries are appended in memory and written to the
 * CSV log file in batches. The file is modelled as a ghost record of
 * whether it exists, how many header rows it holds and the data rows
 * appended to it.
 */
module LogManager {

  datatype CsvFile<E> = CsvFile(present: bool, headers: nat, rows: seq<E>)

  /** A file that does not exist holds nothing. */
  predicate Consistent<E>(f: CsvFile<E>) {
    !f.present ==> f.headers == 0 && f.rows == []
  }

  /** `should_flush`: whether the running row counter has reached a multiple of the cadence. */
  function ShouldFlush(counter: int, flushInterval: int): (due: bool)
    requires flushInterval != 0
    ensures due <==> (counter / flushInterval) * flushInterval == counter
  {
    counter % flushInterval == 0
  }

  /**
   * Writing every counter as `k * n + j` with `0 <= j < n`: a flush is
   * due exactly when `j` is 0, so counters 1, 2, 3, ... flush every `n`
   * rows.
   */
  lemma FlushCadence(n: int, k: int, j: int)
    requires n > 0 && 0 <= j < n
    ensures ShouldFlush(k * n + j, n) <==> j == 0
  {
    var c := k * n + j;
    var q, r := c / n, c % n;
    assert c == q * n + r && 0 <= r < n;
    assert (k - q) * n == r - j by {
      assert (k - q) * n == k * n - q * n;
    }
    if k - q >= 1 {
      MultipleAtLeast(k - q, n);
      assert false;
    }
    if q - k >= 1 {
      MultipleAtLeast(q - k, n);
      assert false;
    }
  }

  /**
   * A negative cadence flushes on the same counters as its magnitude: a
   * remainder of zero does not depend on the divisor's sign (Python's `%`
   * takes the divisor's sign, Dafny's is never negative, and both are zero
   * exactly on the multiples).
   */
  lemma {:induction false} NegativeCadence(n: int, counter: int)
    requires n > 0
    ensures ShouldFlush(counter, -n) <==> ShouldFlush(counter, n)
  {
    var q, r := counter / -n, counter % -n;
    assert counter == (-q) * n + r && 0 <= r < n;
    FlushCadence(n, -q, r);
  }

  lemma {:induction false} MultipleAtLeast(d: int, n: int)
    requires d >= 1 && n > 0
    ensures d * n >= n
    decreases d
  {
    if d > 1 {
      MultipleAtLeast(d - 1, n);
      assert d * n == (d - 1) * n + n;
    }
  }

  /**
   * A file after `rows` are appended to it: it exists afterwards, and it
   * gains a header row only if it did not exist before.
   */
  function Appended<E>(f: CsvFile<E>, rows: seq<E>): CsvFile<E> {
    CsvFile(true, f.headers + (if f.present then 0 else 1), f.rows + rows)
  }

  class LogBuffer<E> {
    const logFile: string
    const flushInterval: int
    /** The buffered entries not yet written (`_log`). */
    var entries: seq<E>
    /** The log file on disk. */
    ghost var file: CsvFile<E>
    /** The log file as it was when the buffer was created. */
    ghost const initialFile: CsvFile<E>
    /** Every entry ever added, in order. */
    ghost var history: seq<E>

    /**
     * Nothing is lost or reordered: the file's rows followed by the
     * buffer are the original rows followed by everything added; and the
     * file gained one header row exactly when this buffer created it.
     */
    ghost predicate Valid()
      reads this
    {
      && Consistent(file) && Consistent(initialFile)
      && (initialFile.present ==> file.present)
      && file.headers == initialFile.headers + (if file.present && !initialFile.present then 1 else 0)
      && initialFile.rows <= file.rows
      && file.rows + entries == initialFile.rows + history
    }

    constructor (logFile: string, ghost existing: CsvFile<E>, flushInterval: int := 10)
      requires Consistent(existing)
      ensures Valid()
      ensures this.logFile == logFile && this.flushInterval == flushInterval
      ensures entries == [] && history == []
      ensures file == existing && initialFile == existing
    {
      this.logFile := logFile;
      this.flushInterval := flushInterval;
      this.entries := [];
      this.file := existing;
      this.initialFile := existing;
      this.history := [];
    }

    /** `entry_count`. */
    function EntryCount(): (n: nat)
      reads this
      ensures Valid() ==> n == |initialFile.rows| + |history| - |file.rows|
    {
      |entries|
    }

    /** `add_entry`: the entry goes at the end of the buffer. */
    method AddEntry(entry: E)
      requires Valid()
      modifies this`entries, this`history
      ensures Valid()
      ensures entries == old(entries) + [entry]
      ensures history == old(history) + [entry]
      ensures EntryCount() == old(EntryCount()) + 1
    {
      assert file.rows + (entries + [entry]) == (file.rows + entries) + [entry];
      entries := entries + [entry];
      history := history + [entry];
    }

    /**
     * `flush`: an empty buffer touches nothing. Otherwise the buffered
     * entries are appended to the file in order, with a header row only
     * if the file did not exist yet, and the buffer is emptied; when the
     * write fails (`writeOk` false) file and buffer are left as they were.
     */
    method Flush(writeOk: bool) returns (written: bool)
      requires Valid()
      modifies this`entries, this`file
      ensures Valid()
      ensures written <==> old(entries) != [] && writeOk
      ensures written ==> entries == []
      ensures written ==> file == Appended(old(file), old(entries))
      ensures !written ==> entries == old(entries) && file == old(file)
    {
      if entries == [] {
        return false;
      }
      if writeOk {
        ghost var writeHeader := !file.present;
        file := CsvFile(true, file.headers + (if writeHeader then 1 else 0), file.rows + entries);
        entries := [];
        written := true;
      } else {
        written := false;
      }
    }
  }
}
