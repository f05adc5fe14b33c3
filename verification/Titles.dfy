/**
 * The incremental transcript reader: however a transcript grows between reads, it finds what one scan of it all finds.
 */
module Titles {
  import opened Domain
  import opened Sequences

  /**
   * What decoding says of a line: whether it is white space, whether a whole JSON value, and the title it gives this
   * session.
   */
  datatype Format = Format(blank: string -> bool, whole: string -> bool, title: string -> Option<string>)

  /** An empty line is blank and no record. */
  predicate Sane(f: Format) {
    f.blank("") && f.title("") == None
  }

  /** Where the first line ends. */
  function LineEnd(data: string): (k: nat)
    ensures k <= |data| && (k < |data| ==> data[k] == '\n')
    ensures forall i :: 0 <= i < k ==> data[i] != '\n'
  {
    if data == "" || data[0] == '\n' then 0 else 1 + LineEnd(data[1..])
  }

  /** The lines of the data; the last one is what follows the last newline. */
  function Split(data: string): (lines: seq<string>)
    ensures |lines| > 0
    decreases |data|
  {
    var k := LineEnd(data);
    if k == |data| then [data] else [data[..k]] + Split(data[k + 1..])
  }

  /** How many bytes were consumed, and the newest title. */
  datatype Found = Found(consumed: nat, title: string)

  function Named(f: Format, raw: string, was: string): string {
    match f.title(raw)
    case Some(name) => name
    case None => was
  }

  /** A line with no newline yet counts if it is a whole record. */
  predicate Finished(f: Format, raw: string) {
    !f.blank(raw) && f.whole(raw)
  }

  /** One scan of everything that is complete. */
  function Scan(f: Format, data: string, was: string): (r: Found)
    ensures r.consumed <= |data|
    decreases |data|
  {
    var k := LineEnd(data);
    if k == |data| then
      if Finished(f, data) then Found(k, Named(f, data, was)) else Found(0, was)
    else
      var rest := Scan(f, data[k + 1..], Named(f, data[..k], was));
      Found(k + 1 + rest.consumed, rest.title)
  }

  // ---- Scanning in parts ----

  /** Where the last, unfinished line begins. */
  function LastLine(data: string): (k: nat)
    ensures k <= |data| && (k == 0 || data[k - 1] == '\n')
    ensures forall i :: k <= i < |data| ==> data[i] != '\n'
  {
    if data == "" then 0
    else if data[|data| - 1] == '\n' then |data|
    else LastLine(data[..|data| - 1])
  }

  function Tail(data: string): string {
    data[LastLine(data)..]
  }

  lemma LineEndIs(data: string, k: nat)
    requires k <= |data| && (k < |data| ==> data[k] == '\n') && forall i :: 0 <= i < k ==> data[i] != '\n'
    ensures LineEnd(data) == k
  {
    assert k <= LineEnd(data);
  }

  lemma ScanLine(f: Format, line: string, rest: string, was: string)
    requires forall i :: 0 <= i < |line| ==> line[i] != '\n'
    ensures var r := Scan(f, rest, Named(f, line, was));
            Scan(f, line + ['\n'] + rest, was) == Found(|line| + 1 + r.consumed, r.title)
  {
    var data := line + ['\n'] + rest;
    LineEndIs(data, |line|);
    assert data[..|line|] == line && data[|line| + 1..] == rest;
  }

  /** Whole lines are scanned first, whatever comes after them. */
  lemma {:induction false} ScanSplit(f: Format, head: string, more: string, was: string)
    requires Sane(f) && (head == "" || head[|head| - 1] == '\n')
    ensures var t := Scan(f, head, was);
            var r := Scan(f, more, t.title);
            t.consumed == |head| && Scan(f, head + more, was) == Found(|head| + r.consumed, r.title)
    decreases |head|
  {
    if head == "" {
      assert head + more == more;
      LineEndIs(head, 0);
    } else {
      var k := LineEnd(head);
      var line, rest := head[..k], head[k + 1..];
      assert head == line + ['\n'] + rest;
      Regroup(line + ['\n'], rest, more);
      ScanLine(f, line, rest, was);
      ScanLine(f, line, rest + more, was);
      ScanSplit(f, rest, more, Named(f, line, was));
    }
  }

  /** The reader, up to the file it reads: where it stopped and what it found. */
  datatype Reader = Reader(offset: nat, title: string)

  const START := Reader(0, "")

  /** A read: nothing is found before the file is there; a file that got shorter is read from its start again. */
  function Read(f: Format, r: Reader, file: Option<string>): Reader {
    match file
    case None => r
    case Some(data) =>
      var from := if |data| < r.offset then 0 else r.offset;
      var found := Scan(f, data[from..], r.title);
      Reader(from + found.consumed, found.title)
  }

  function ReadAll(f: Format, files: seq<Option<string>>): Reader {
    if files == [] then START else Read(f, ReadAll(f, files[..|files| - 1]), files[|files| - 1])
  }

  /** The last contents seen. */
  function Latest(files: seq<Option<string>>): string {
    if files == [] then ""
    else if files[|files| - 1].Some? then files[|files| - 1].value
    else Latest(files[..|files| - 1])
  }

  /** A last line that stands as a record without its newline: not blank, and a whole value. */
  ghost predicate Ends(f: Format, line: string) {
    f.whole(line) && !f.blank(line)
  }

  /**
   * The file only grows, and a last line that was a whole record when read is not carried on: what comes next is its
   * newline.
   */
  ghost predicate Grows(f: Format, old_: string, new_: string) {
    old_ <= new_ && (Ends(f, Tail(old_)) && |old_| < |new_| ==> new_[|old_|] == '\n')
  }

  ghost predicate AllGrow(f: Format, files: seq<Option<string>>) {
    forall k :: 0 <= k < |files| && files[k].Some? ==> Grows(f, Latest(files[..k]), files[k].value)
  }

  /** A read after a read is one read of it all. */
  lemma ReadAgain(f: Format, data: string, file: string)
    requires Sane(f) && Grows(f, data, file)
    ensures var r := Scan(f, data, "");
            var all := Scan(f, file, "");
            Read(f, Reader(r.consumed, r.title), Some(file)) == Reader(all.consumed, all.title)
  {
    var k, more := LastLine(data), file[|data|..];
    assert data == data[..k] + data[k..] && file == data + more;
    ReadOn(f, data[..k], data[k..], more);
  }

  lemma LastLineScanned(f: Format, tail: string, was: string)
    requires forall i :: 0 <= i < |tail| ==> tail[i] != '\n'
    ensures Scan(f, tail, was) == if Finished(f, tail) then Found(|tail|, Named(f, tail, was)) else Found(0, was)
  {
    LineEndIs(tail, |tail|);
  }

  /** The part of a read that is left to do, from where the last one stopped. */
  lemma Resumed(f: Format, file: string, from: nat, was: string, rest: string, total: nat, title: string)
    requires from <= |file| && file[from..] == rest
    requires total == from + Scan(f, rest, was).consumed && title == Scan(f, rest, was).title
    ensures Read(f, Reader(from, was), Some(file)) == Reader(total, title)
  {
  }

  lemma ReadOn(f: Format, head: string, tail: string, more: string)
    requires Sane(f)
    requires (head == "" || head[|head| - 1] == '\n') && forall i :: 0 <= i < |tail| ==> tail[i] != '\n'
    requires Finished(f, tail) && more != "" ==> more[0] == '\n'
    ensures var r := Scan(f, head + tail, "");
            var file := head + tail + more;
            var all := Scan(f, file, "");
            Read(f, Reader(r.consumed, r.title), Some(file)) == Reader(all.consumed, all.title)
  {
    var t, file := Scan(f, head, "").title, head + tail + more;
    var all := Scan(f, file, "");
    Regroup(head, tail, more);
    ScanSplit(f, head, tail, "");
    ScanSplit(f, head, tail + more, "");
    LastLineScanned(f, tail, t);
    if !Finished(f, tail) {
      Resumed(f, file, |head|, t, tail + more, all.consumed, all.title);
    } else {
      if more == "" {
        LastLineScanned(f, "", Named(f, tail, t));
        assert tail + more == tail;
      } else {
        LineCarriedOn(f, tail, more, t);
      }
      Resumed(f, file, |head + tail|, Named(f, tail, t), more, all.consumed, all.title);
    }
  }

  /** A record consumed without its newline: the newline then reads as an empty line. */
  lemma LineCarriedOn(f: Format, tail: string, more: string, was: string)
    requires Sane(f) && more != "" && more[0] == '\n' && forall i :: 0 <= i < |tail| ==> tail[i] != '\n'
    ensures var r := Scan(f, more, Named(f, tail, was));
            Scan(f, tail + more, was) == Found(|tail| + r.consumed, r.title)
  {
    var rest := more[1..];
    EmptyLine(f, more, Named(f, tail, was));
    NewlineFirst(tail, more);
    ScanLine(f, tail, rest, was);
  }

  lemma EmptyLine(f: Format, more: string, was: string)
    requires Sane(f) && more != "" && more[0] == '\n'
    ensures Scan(f, more, was) == var r := Scan(f, more[1..], was); Found(1 + r.consumed, r.title)
  {
    assert LineEnd(more) == 0 && more[..0] == "";
  }

  lemma NewlineFirst(tail: string, more: string)
    requires more != "" && more[0] == '\n'
    ensures tail + more == tail + ['\n'] + more[1..]
  {
    assert more == ['\n'] + more[1..];
    Regroup(tail, ['\n'], more[1..]);
  }

  /**
   * Incremental equals batch: after any reads of a growing transcript, half-written last lines included, the title is
   * that of one scan of the latest contents, and the offset says each byte of it was consumed once.
   */
  lemma {:induction false} IncrementalIsBatch(f: Format, files: seq<Option<string>>)
    requires Sane(f) && AllGrow(f, files)
    ensures var all := Scan(f, Latest(files), ""); ReadAll(f, files) == Reader(all.consumed, all.title)
  {
    if files != [] {
      var n := |files| - 1;
      forall k | 0 <= k < n && files[..n][k].Some? ensures Grows(f, Latest(files[..n][..k]), files[..n][k].value) {
        assert files[..n][..k] == files[..k];
      }
      IncrementalIsBatch(f, files[..n]);
      if files[n].Some? { ReadAgain(f, Latest(files[..n]), files[n].value); }
    }
  }

  // ---- What one scan finds ----

  /** The lines that count: those with a newline, and a last one that is a whole record without. */
  ghost function Counted(f: Format, lines: seq<string>): seq<string>
    requires |lines| > 0
  {
    if Ends(f, lines[|lines| - 1]) then lines else lines[..|lines| - 1]
  }

  ghost function Records(f: Format, data: string): seq<string> {
    Counted(f, Split(data))
  }

  /** The title of the last of the records that has one, and `was` if none has. */
  ghost predicate Newest(f: Format, records: seq<string>, was: string, title: string) {
    || (title == was && forall k :: 0 <= k < |records| ==> f.title(records[k]) == None)
    || exists k :: 0 <= k < |records| && f.title(records[k]) == Some(title)
                   && forall j :: k < j < |records| ==> f.title(records[j]) == None
  }

  lemma NewestFirst(f: Format, first: string, rest: seq<string>, was: string, title: string)
    requires Newest(f, rest, Named(f, first, was), title)
    ensures Newest(f, [first] + rest, was, title)
  {
    var all := [first] + rest;
    assert forall k :: 0 <= k < |rest| ==> all[k + 1] == rest[k];
    assert forall k :: 0 < k < |all| ==> all[k] == rest[k - 1];
    if k :| 0 <= k < |rest| && f.title(rest[k]) == Some(title)
            && forall j :: k < j < |rest| ==> f.title(rest[j]) == None
    {
      assert f.title(all[k + 1]) == Some(title);
    } else if f.title(first).Some? {
      assert f.title(all[0]) == Some(title);
    }
  }

  lemma CountedFirst(f: Format, first: string, rest: seq<string>)
    requires |rest| > 0
    ensures Counted(f, [first] + rest) == [first] + Counted(f, rest)
  {
    var all := [first] + rest;
    assert all[|all| - 1] == rest[|rest| - 1] && all[..|all| - 1] == [first] + rest[..|rest| - 1];
  }

  /** The title of one scan is the newest of the records. */
  lemma {:induction false} NewestWins(f: Format, data: string, was: string)
    ensures Newest(f, Records(f, data), was, Scan(f, data, was).title)
    decreases |data|
  {
    var k := LineEnd(data);
    if k < |data| {
      NewestWins(f, data[k + 1..], Named(f, data[..k], was));
      CountedFirst(f, data[..k], Split(data[k + 1..]));
      NewestFirst(f, data[..k], Records(f, data[k + 1..]), was, Scan(f, data, was).title);
    } else if Finished(f, data) {
      assert Records(f, data) == [data] + [];
      NewestFirst(f, data, [], was, Named(f, data, was));
    } else {
      assert Records(f, data) == [];
    }
  }

  lemma LastLineIs(data: string, k: nat)
    requires k <= |data| && (k == 0 || data[k - 1] == '\n') && forall i :: k <= i < |data| ==> data[i] != '\n'
    ensures LastLine(data) == k
  {
    var m := LastLine(data);
    assert m > 0 ==> data[m - 1] == '\n';
  }

  lemma TailIsWhole(data: string)
    requires LineEnd(data) == |data|
    ensures LastLine(data) == 0 && Tail(data) == data
  {
    LastLineIs(data, 0);
  }

  lemma {:induction false} LastLineBehind(head: string, rest: string)
    requires head != "" && head[|head| - 1] == '\n'
    ensures LastLine(head + rest) == |head| + LastLine(rest)
    decreases |rest|
  {
    if rest == "" {
      assert head + rest == head;
    } else {
      assert (head + rest)[..|head + rest| - 1] == head + rest[..|rest| - 1];
      if rest[|rest| - 1] != '\n' { LastLineBehind(head, rest[..|rest| - 1]); }
    }
  }

  lemma DropBoth(head: string, rest: string, m: nat)
    requires m <= |rest|
    ensures (head + rest)[|head| + m..] == rest[m..]
  {
  }

  lemma TailBehind(head: string, rest: string)
    requires head != "" && head[|head| - 1] == '\n'
    ensures LastLine(head + rest) == |head| + LastLine(rest) && Tail(head + rest) == Tail(rest)
  {
    LastLineBehind(head, rest);
    DropBoth(head, rest, LastLine(rest));
  }

  /** Where the last record that counts ends. */
  ghost function RecordsEnd(f: Format, data: string): nat {
    if Ends(f, Tail(data)) then |data| else LastLine(data)
  }

  lemma LineConsumed(f: Format, data: string, line: string, rest: string, was: string)
    requires data == line + ['\n'] + rest && forall i :: 0 <= i < |line| ==> line[i] != '\n'
    requires Scan(f, rest, Named(f, line, was)).consumed == RecordsEnd(f, rest)
    ensures Scan(f, data, was).consumed == RecordsEnd(f, data)
  {
    ScanLine(f, line, rest, was);
    TailBehind(line + ['\n'], rest);
  }

  lemma TailConsumed(f: Format, data: string, was: string)
    requires LineEnd(data) == |data|
    ensures Scan(f, data, was).consumed == RecordsEnd(f, data)
  {
    TailIsWhole(data);
  }

  lemma FirstLine(data: string) returns (line: string, rest: string)
    requires LineEnd(data) < |data|
    ensures data == line + ['\n'] + rest && forall i :: 0 <= i < |line| ==> line[i] != '\n'
  {
    line, rest := data[..LineEnd(data)], data[LineEnd(data) + 1..];
  }

  /** It consumes the records and what ends them, and nothing of a line still to follow. */
  lemma {:induction false} RecordsConsumed(f: Format, data: string, was: string)
    ensures Scan(f, data, was).consumed == RecordsEnd(f, data)
    decreases |data|
  {
    if LineEnd(data) == |data| {
      TailConsumed(f, data, was);
    } else {
      var line, rest := FirstLine(data);
      RecordsConsumed(f, rest, Named(f, line, was));
      LineConsumed(f, data, line, rest, was);
    }
  }

  /**
   * After any reads of a growing transcript the title is the newest of the records it holds, and the offset stands
   * behind them.
   */
  lemma ReadsFindNewest(f: Format, files: seq<Option<string>>)
    requires Sane(f) && AllGrow(f, files)
    ensures Newest(f, Records(f, Latest(files)), "", ReadAll(f, files).title)
    ensures ReadAll(f, files).offset == RecordsEnd(f, Latest(files))
  {
    IncrementalIsBatch(f, files);
    NewestWins(f, Latest(files), "");
    RecordsConsumed(f, Latest(files), "");
  }

  /**
   * One read of any file, grown or not: it starts where the last one stopped, or at the start of a file that is
   * shorter than that, finds the newest of the records from there on, and stops behind them; without a file it finds
   * nothing and stays.
   */
  lemma ReadFinds(f: Format, r: Reader, file: Option<string>)
    ensures var now := Read(f, r, file);
            match file
            case None => now == r
            case Some(data) =>
              var from := if r.offset <= |data| then r.offset else 0;
              && Newest(f, Records(f, data[from..]), r.title, now.title)
              && now.offset == from + RecordsEnd(f, data[from..])
  {
    if file.Some? {
      var from := if r.offset <= |file.value| then r.offset else 0;
      NewestWins(f, file.value[from..], r.title);
      RecordsConsumed(f, file.value[from..], r.title);
    }
  }

  // ---- In place ----

  /** What the loop of `read` makes of lines already split. */
  function ScanLines(f: Format, lines: seq<string>, was: string): Found
    requires |lines| > 0
  {
    if |lines| == 1 then
      if Finished(f, lines[0]) then Found(|lines[0]|, Named(f, lines[0], was)) else Found(0, was)
    else
      var rest := ScanLines(f, lines[1..], Named(f, lines[0], was));
      Found(|lines[0]| + 1 + rest.consumed, rest.title)
  }

  lemma {:induction false} SplitScanned(f: Format, data: string, was: string)
    ensures ScanLines(f, Split(data), was) == Scan(f, data, was)
    decreases |data|
  {
    var k := LineEnd(data);
    if k < |data| {
      assert Split(data)[1..] == Split(data[k + 1..]);
      SplitScanned(f, data[k + 1..], Named(f, data[..k], was));
    }
  }

  /** The loop has read `i` lines. */
  ghost predicate OnTheWay(f: Format, lines: seq<string>, was: string, i: nat, consumed: nat, title: string)
    requires i <= |lines| && |lines| > 0
  {
    var all := ScanLines(f, lines, was);
    if i == |lines| then all == Found(consumed, title)
    else
      var rest := ScanLines(f, lines[i..], title);
      all == Found(consumed + rest.consumed, rest.title)
  }

  lemma NextLine(f: Format, lines: seq<string>, was: string, i: nat, consumed: nat, title: string)
    requires i < |lines| && OnTheWay(f, lines, was, i, consumed, title)
    ensures var raw := lines[i];
      if i + 1 < |lines| then OnTheWay(f, lines, was, i + 1, consumed + |raw| + 1, Named(f, raw, title))
      else if Finished(f, raw) then OnTheWay(f, lines, was, i + 1, consumed + |raw|, Named(f, raw, title))
      else ScanLines(f, lines, was) == Found(consumed, title)
  {
    assert lines[i..][1..] == lines[i + 1..];
  }

  class TitleReader {
    var sessionID: string
    var located: bool
    var offset: nat
    var title: string

    constructor ()
      ensures sessionID == "" && !located && offset == 0 && title == ""
    {
      sessionID, located, offset, title := "", false, 0, "";
    }

    /**
     * A read for a session; another session than the last starts afresh. `usable` says whether the id can name a file,
     * `listed` whether a search by its name finds one, `file` what it holds, if it opens; `f` decodes lines for that
     * session. The path once found is kept while it opens; the title is empty when there is no transcript to look in.
     */
    method ReadTitle(f: Format, id: string, usable: bool, listed: bool, file: Option<string>) returns (found: string)
      modifies this
      ensures !usable ==> found == "" && unchanged(this)
      ensures usable ==>
        var known := listed || (id == old(sessionID) && old(located));
        && sessionID == id && (located <==> known && file.Some?)
        && Reader(offset, title) == Read(f, if id == old(sessionID) then old(Reader(offset, title)) else START,
                                         if known then file else None)
        && found == if known then title else ""
    {
      if !usable { return ""; }
      if id != sessionID { sessionID, located, offset, title := id, false, 0, ""; }
      if !located {
        if !listed { return ""; }
        located := true;
      }
      if file == None {
        located := false;
        return title;
      }
      Consume(f, file.value);
      found := title;
    }

    /** What stands behind the offset. */
    method Consume(f: Format, data: string)
      modifies this`offset, this`title
      ensures Reader(offset, title) == Read(f, old(Reader(offset, title)), Some(data))
    {
      if |data| < offset { offset := 0; }
      var consumed := ConsumeLines(f, Split(data[offset..]));
      SplitScanned(f, data[offset..], old(title));
      offset := offset + consumed;
    }

    /** Line by line; a last one that is no record yet stays for the next read. */
    method ConsumeLines(f: Format, lines: seq<string>) returns (consumed: nat)
      requires |lines| > 0
      modifies this`title
      ensures Found(consumed, title) == ScanLines(f, lines, old(title))
    {
      var i: nat := 0;
      consumed := 0;
      while i < |lines|
        invariant i <= |lines| && OnTheWay(f, lines, old(title), i, consumed, title)
      {
        var raw := lines[i];
        NextLine(f, lines, old(title), i, consumed, title);
        if i == |lines| - 1 {
          if !Finished(f, raw) { break; }
          consumed := consumed + |raw|;
        } else {
          consumed := consumed + |raw| + 1;
        }
        title := Named(f, raw, title);
        i := i + 1;
      }
    }
  }
}
