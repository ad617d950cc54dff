/** The file journal as an object: opening a file, appending a record, signing once. */
module JournalFile {
  import opened Lists
  import opened Bytes
  import opened JournalText
  import opened Journal
  import opened JournalRuns

  /** The file's text is kept beside the map that was read from it; `tears` counts the appends this process tore. */
  class FileJournal {
    var file: string
    var entries: Entries
    ghost var tears: nat

    ghost function Now(): State
      reads this
    {
      State(file, Some(entries), tears)
    }

    constructor (file: string, entries: Entries)
      ensures Now() == State(file, Some(entries), 0)
    {
      this.file, this.entries, this.tears := file, entries, 0;
    }

    /** `open`: read every line, skip blank ones, refuse at the first that is neither blank nor a record. */
    static method Open(text: string) returns (journal: FileJournal?)
      ensures (Next(State(text, None, 0), Reopen).0.entries.Some?) == (journal != null)
      ensures journal != null ==> fresh(journal) && journal.Now() == Next(State(text, None, 0), Reopen).0
    {
      var entries: Entries := map[];
      var lines := Lines(text);
      var k := 0;
      while k < |lines|
        invariant 0 <= k <= |lines|
        invariant OpenText(text) == Load(lines[k..], entries)
      {
        LoadStep(lines, k, entries);
        hide Load, ParseLine, Trim, OpenText;
        match ParseLine(lines[k]) {
          case Some(record) =>
            entries := entries[record.leaf := record];
          case None =>
            if |Trim(lines[k])| != 0 {
              journal := null;
              return;
            }
        }
        k := k + 1;
      }
      journal := new FileJournal(text, entries);
    }

    method Get(leaf: LeafId) returns (record: Option<SpendRecord>)
      ensures record.Some? <==> leaf in entries
      ensures record.Some? ==> record.value == entries[leaf]
    {
      record := if leaf in entries then Some(entries[leaf]) else None;
    }

    /** `put`: append the line, and only once it is durable let the map know. */
    method Put(record: SpendRecord, fate: Fate) returns (ok: bool)
      modifies this
      ensures Now() == JournalRuns.Put(old(Now()), record, fate)
      ensures ok == fate.Durable?
    {
      match fate {
        case Failed(written) =>
          file := file + Piece(record, written);
          tears := tears + if Tears(record, written) then 1 else 0;
          ok := false;
        case Durable =>
          file := file + FormatLine(record);
          entries := entries[record.leaf := record];
          ok := true;
      }
    }

    /** `sign_once`: the closure is called only for a leaf with no record, and its signature leaves only after `put`. */
    method SignOnce(leaf: LeafId, digest: Bytes, signed: Option<Bytes>, fate: Fate)
      returns (outcome: Option<Outcome>, called: bool)
      modifies this
      ensures (Now(), outcome) == Next(old(Now()), JournalRuns.SignOnce(leaf, digest, signed, fate))
      ensures called == (leaf !in old(entries))
    {
      called := false;
      var existing := Get(leaf);
      if existing.Some? {
        if existing.value.digest == digest {
          return Some(Outcome(existing.value, false)), called;
        }
        return None, called;
      }
      called := true;
      if signed.None? {
        return None, called;
      }
      var record := SpendRecord(leaf, digest, signed.value);
      var ok := Put(record, fate);
      outcome := if ok then Some(Outcome(record, true)) else None;
    }
  }

  lemma LoadStep(lines: seq<string>, k: nat, m: Entries)
    requires k < |lines|
    ensures Load(lines[k..], m)
            == match ParseLine(lines[k])
               case Some(r) => Load(lines[k + 1..], m[r.leaf := r])
               case None => if |Trim(lines[k])| == 0 then Load(lines[k + 1..], m) else None
  {
    hide ParseLine, Trim;
    assert lines[k..][1..] == lines[k + 1..];
  }

  // ---- round trip ----------------------------------------------------------

  /** Successful puts, one after another, a leaf possibly more than once. */
  function PutAll(s: State, recs: seq<SpendRecord>): (t: State)
    requires s.entries.Some?
    ensures t.entries.Some?
  {
    if |recs| == 0 then s
    else JournalRuns.Put(PutAll(s, recs[..|recs| - 1]), recs[|recs| - 1], Durable)
  }

  lemma {:induction false} PutAllState(recs: seq<SpendRecord>)
    requires Good(recs)
    ensures PutAll(State("", Some(map[]), 0), recs) == State(Body(recs), Some(MapOf(recs)), 0)
  {
    hide *;
    if |recs| == 0 {
      NoPuts();
    } else {
      var before, last := recs[..|recs| - 1], recs[|recs| - 1];
      GoodPrefix(recs);
      PutAllState(before);
      assert before + [last] == recs;
      PutAllSnoc(before, last);
      PutOne(before, last);
    }
  }

  lemma NoPuts()
    ensures PutAll(State("", Some(map[]), 0), []) == State(Body([]), Some(MapOf([])), 0)
  {
  }

  lemma GoodPrefix(recs: seq<SpendRecord>)
    requires Good(recs) && |recs| > 0
    ensures Good(recs[..|recs| - 1])
  {
    assert forall r :: r in recs[..|recs| - 1] ==> r in recs;
  }

  lemma PutAllSnoc(before: seq<SpendRecord>, last: SpendRecord)
    ensures var s := State("", Some(map[]), 0);
            PutAll(s, before + [last]) == JournalRuns.Put(PutAll(s, before), last, Durable)
  {
    hide JournalRuns.Put;
    assert (before + [last])[..|before|] == before;
  }

  lemma PutOne(before: seq<SpendRecord>, last: SpendRecord)
    ensures JournalRuns.Put(State(Body(before), Some(MapOf(before)), 0), last, Durable)
            == State(Body(before + [last]), Some(MapOf(before + [last])), 0)
  {
    hide FormatLine, Body, MapOf;
    MapOfSnoc(before, last);
    BodyAppend(before, [last]);
    OneLine(last);
  }

  /** Round trip: after any successful puts of records with signatures, reopening gives back exactly the map in memory. */
  lemma PutsReopen(recs: seq<SpendRecord>)
    requires Good(recs)
    ensures var s := PutAll(State("", Some(map[]), 0), recs);
            Next(s, Reopen).0 == s
  {
    hide OpenText, Body, MapOf;
    PutAllState(recs);
    OpenBody(recs);
  }

  /** Without a signature the round trip fails: the file can never be opened again. */
  lemma NoSignatureNoReopen(recs: seq<SpendRecord>, r: SpendRecord, more: string)
    requires Good(recs) && Typed(r) && |r.signature| == 0
    ensures var s := JournalRuns.Put(PutAll(State("", Some(map[]), 0), recs), r, Durable);
            OpenText(s.file + more).None?
  {
    hide OpenText, Body, MapOf, FormatLine, Typed;
    PutAllState(recs);
    NoSignature(recs, r);
  }
}
