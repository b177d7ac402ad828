/** The append-only, hash-chained audit ledger. The digest (SHA-256 over the previous hash and the
    RFC 8785 canonical form) is a parameter; tamper evidence needs only that it is injective. */
module Audit {
  import opened Wrappers

  const GENESIS_HASH: string := "0000000000000000000000000000000000000000000000000000000000000000"

  /** An event before it is chained; `rest` holds every other field in canonical form. */
  datatype Event = Event(schemaVersion: string, caseId: string, sequenceNo: int, rest: map<string, string>)

  datatype Record = Record(event: Event, previousHash: string, recordHash: string)

  /** A line of the ledger file: any of the required fields may be missing. */
  datatype Line = Line(schemaVersion: Option<string>, caseId: Option<string>, sequenceNo: Option<int>,
                       previousHash: Option<string>, recordHash: Option<string>, rest: map<string, string>)

  datatype Hasher = Hasher(digest: (Event, string) -> string)

  datatype AuditError = MissingFields(index: nat) | BadPreviousHash

  ghost predicate Injective(h: Hasher) {
    forall e, p, e', p' :: h.digest(e, p) == h.digest(e', p') ==> e == e' && p == p'
  }

  ghost predicate DigestLength(h: Hasher) {
    forall e, p :: |h.digest(e, p)| == 64
  }

  function HashEvent(h: Hasher, event: Event, previousHash: string): Result<string, AuditError> {
    if |previousHash| != 64 then Failure(BadPreviousHash) else Success(h.digest(event, previousHash))
  }

  // ---------------------------------------------------------------- file format

  function Parse(line: Line): Option<Record> {
    if line.schemaVersion.Some? && line.caseId.Some? && line.sequenceNo.Some? && line.previousHash.Some?
        && line.recordHash.Some?
    then Some(Record(Event(line.schemaVersion.value, line.caseId.value, line.sequenceNo.value, line.rest),
                     line.previousHash.value, line.recordHash.value))
    else None
  }

  function Render(r: Record): Line {
    Line(Some(r.event.schemaVersion), Some(r.event.caseId), Some(r.event.sequenceNo),
         Some(r.previousHash), Some(r.recordHash), r.event.rest)
  }

  function ParseAll(lines: seq<Line>): Result<seq<Record>, AuditError> {
    if lines == [] then Success([])
    else
      var n := |lines| - 1;
      var records :- ParseAll(lines[..n]);
      var record := Parse(lines[n]);
      if record.None? then Failure(MissingFields(n)) else Success(records + [record.value])
  }

  /** Writing a record and reading it back changes nothing. */
  lemma RenderParse(lines: seq<Line>, r: Record)
    requires ParseAll(lines).Success?
    ensures Parse(Render(r)) == Some(r)
    ensures ParseAll(lines + [Render(r)]) == Success(ParseAll(lines).value + [r])
  {
    assert (lines + [Render(r)])[..|lines|] == lines;
  }

  // ---------------------------------------------------------------- chains

  function Head(records: seq<Record>): string {
    if records == [] then GENESIS_HASH else records[|records| - 1].recordHash
  }

  ghost predicate Linked(h: Hasher, records: seq<Record>, i: nat)
    requires i < |records|
  {
    && records[i].previousHash == Head(records[..i])
    && records[i].recordHash == h.digest(records[i].event, records[i].previousHash)
  }

  /** Every record names the hash of the one before it and carries its own. */
  ghost predicate Chained(h: Hasher, records: seq<Record>) {
    forall i :: 0 <= i < |records| ==> Linked(h, records, i)
  }

  lemma ChainedPrefix(h: Hasher, records: seq<Record>, k: nat)
    requires Chained(h, records) && k <= |records|
    ensures Chained(h, records[..k])
  {
    forall i | 0 <= i < k ensures Linked(h, records[..k], i) {
      assert Linked(h, records, i);
      assert records[..k][..i] == records[..i];
    }
  }

  lemma ChainedAppend(h: Hasher, records: seq<Record>, r: Record)
    ensures Chained(h, records + [r])
       <==> Chained(h, records) && r.previousHash == Head(records) && r.recordHash == h.digest(r.event, r.previousHash)
  {
    var more := records + [r];
    assert more[..|records|] == records;
    if Chained(h, more) {
      ChainedPrefix(h, more, |records|);
      assert Linked(h, more, |records|);
    }
    if Chained(h, records) && r.previousHash == Head(records) && r.recordHash == h.digest(r.event, r.previousHash) {
      forall i | 0 <= i < |more| ensures Linked(h, more, i) {
        if i < |records| {
          assert Linked(h, records, i);
          assert more[..i] == records[..i];
        }
      }
    }
  }

  lemma HeadLength(h: Hasher, records: seq<Record>)
    requires DigestLength(h) && Chained(h, records)
    ensures |Head(records)| == 64
  {
    if records != [] {
      assert Linked(h, records, |records| - 1);
    }
  }

  // ---------------------------------------------------------------- numbering

  function CountCase(records: seq<Record>, caseId: string): nat {
    if records == [] then 0
    else CountCase(records[..|records| - 1], caseId) + if records[|records| - 1].event.caseId == caseId then 1 else 0
  }

  /** Each case's records are numbered 1, 2, 3, ... in ledger order. */
  ghost predicate Numbered(records: seq<Record>) {
    forall i :: 0 <= i < |records| ==>
      records[i].event.sequenceNo == 1 + CountCase(records[..i], records[i].event.caseId)
  }

  lemma NumberedAppend(records: seq<Record>, r: Record)
    requires Numbered(records) && r.event.sequenceNo == 1 + CountCase(records, r.event.caseId)
    ensures Numbered(records + [r])
  {
    var more := records + [r];
    forall i | 0 <= i < |more| ensures more[i].event.sequenceNo == 1 + CountCase(more[..i], more[i].event.caseId) {
      assert more[..i] == records[..i];
      assert i == |records| ==> records[..i] == records;
    }
  }

  ghost function EarlierOf(records: seq<Record>, i: nat, caseId: string): set<nat>
    requires i <= |records|
  {
    set j: nat | j < i && records[j].event.caseId == caseId
  }

  lemma {:induction false} CountedCase(records: seq<Record>, i: nat, caseId: string)
    requires i <= |records|
    ensures CountCase(records[..i], caseId) == |EarlierOf(records, i, caseId)|
  {
    if i > 0 {
      CountedCase(records, i - 1, caseId);
      assert records[..i][..i - 1] == records[..i - 1];
      var earlier := EarlierOf(records, i - 1, caseId);
      assert EarlierOf(records, i, caseId)
          == if records[i - 1].event.caseId == caseId then earlier + {i - 1} else earlier;
    }
  }

  /** A record's number is one more than the number of earlier records of its case. */
  lemma NumberedExactly(records: seq<Record>)
    ensures Numbered(records) <==>
            forall i :: 0 <= i < |records| ==>
              records[i].event.sequenceNo == 1 + |EarlierOf(records, i, records[i].event.caseId)|
  {
    hide EarlierOf, CountCase;
    forall i | 0 <= i < |records|
      ensures CountCase(records[..i], records[i].event.caseId) == |EarlierOf(records, i, records[i].event.caseId)|
    {
      CountedCase(records, i, records[i].event.caseId);
    }
  }

  // ---------------------------------------------------------------- the ledger

  class Ledger {
    const hasher: Hasher
    var lines: seq<Line>

    constructor (hasher: Hasher)
      ensures this.hasher == hasher && lines == []
    {
      this.hasher := hasher;
      lines := [];
    }

    ghost function Records(): Result<seq<Record>, AuditError>
      reads this
    {
      ParseAll(lines)
    }

    /** The ledger as this class writes it: readable, chained and numbered. */
    ghost predicate Valid()
      reads this
    {
      Records().Success? && Chained(hasher, Records().value) && Numbered(Records().value)
    }

    method ReadRecords() returns (r: Result<seq<Record>, AuditError>)
      ensures r == Records()
    {
      var records: seq<Record> := [];
      for i := 0 to |lines|
        invariant ParseAll(lines[..i]) == Success(records)
      {
        assert lines[..i + 1][..i] == lines[..i];
        var record := Parse(lines[i]);
        if record.None? {
          ParseStuck(lines, i + 1);
          return Failure(MissingFields(i));
        }
        records := records + [record.value];
      }
      assert lines[..|lines|] == lines;
      r := Success(records);
    }

    method HeadHash() returns (r: Result<string, AuditError>)
      ensures Records().Success? ==> r == Success(Head(Records().value))
      ensures Records().Failure? ==> r == Failure(Records().error)
    {
      var records :- ReadRecords();
      r := Success(if records == [] then GENESIS_HASH else records[|records| - 1].recordHash);
    }

    /** Appends one event for a case: numbered after the case's own records, chained to the head. */
    method Append(caseId: string, rest: map<string, string>) returns (r: Result<string, AuditError>)
      modifies this
      ensures Records().Success? <== old(Records().Success?)
      ensures r.Failure? ==> lines == old(lines)
      ensures r.Failure? <==> old(Records().Failure?) || |Head(old(Records()).value)| != 64
      ensures r.Success? ==>
                var before := old(Records()).value;
                var event := Event("1.0", caseId, 1 + CountCase(before, caseId), rest);
                && r.value == hasher.digest(event, Head(before))
                && lines == old(lines) + [Render(Record(event, Head(before), r.value))]
                && Records().value == before + [Record(event, Head(before), r.value)]
      ensures old(Valid()) ==> Valid() && (DigestLength(hasher) ==> r.Success?)
    {
      hide ParseAll, Chained, Numbered;
      var records :- ReadRecords();
      var previousHash := if records == [] then GENESIS_HASH else records[|records| - 1].recordHash;
      var occurrences := 0;
      for i := 0 to |records|
        invariant occurrences == CountCase(records[..i], caseId)
      {
        assert records[..i + 1][..i] == records[..i];
        if records[i].event.caseId == caseId {
          occurrences := occurrences + 1;
        }
      }
      assert records[..|records|] == records;
      var event := Event("1.0", caseId, 1 + occurrences, rest);
      if Valid() && DigestLength(hasher) {
        HeadLength(hasher, records);
      }
      var recordHash :- HashEvent(hasher, event, previousHash);
      var record := Record(event, previousHash, recordHash);
      RenderParse(lines, record);
      ChainedAppend(hasher, records, record);
      if Numbered(records) {
        NumberedAppend(records, record);
      }
      lines := lines + [Render(record)];
      r := Success(recordHash);
    }

    /** Walks the chain from genesis and reports the first record that does not fit. */
    method Verify() returns (r: Result<(bool, nat), AuditError>)
      requires DigestLength(hasher)
      ensures r.Failure? <==> Records().Failure?
      ensures r.Success? ==>
                var records, ok, index := Records().value, r.value.0, r.value.1;
                && (ok <==> Chained(hasher, records))
                && (ok ==> index == |records|)
                && (!ok ==>
                      && index < |records|
                      && Chained(hasher, records[..index])
                      && !Chained(hasher, records[..index + 1]))
    {
      var previousHash := GENESIS_HASH;
      var records :- ReadRecords();
      for index := 0 to |records|
        invariant Chained(hasher, records[..index]) && previousHash == Head(records[..index])
      {
        var record := records[index];
        assert records[..index + 1] == records[..index] + [record];
        ChainedAppend(hasher, records[..index], record);
        HeadLength(hasher, records[..index]);
        if record.previousHash != previousHash {
          BrokenPrefix(hasher, records, index + 1);
          return Success((false, index));
        }
        var expected :- assert HashEvent(hasher, record.event, previousHash);
        if record.recordHash != expected {
          BrokenPrefix(hasher, records, index + 1);
          return Success((false, index));
        }
        previousHash := expected;
      }
      assert records[..|records|] == records;
      r := Success((true, |records|));
    }
  }

  lemma {:induction false} ParseStuck(lines: seq<Line>, k: nat)
    requires k <= |lines| && ParseAll(lines[..k]).Failure?
    ensures ParseAll(lines) == Failure(ParseAll(lines[..k]).error)
    decreases |lines| - k
  {
    if k == |lines| {
      assert lines[..k] == lines;
    } else {
      assert lines[..k + 1][..k] == lines[..k];
      ParseStuck(lines, k + 1);
    }
  }

  lemma BrokenPrefix(h: Hasher, records: seq<Record>, k: nat)
    requires k <= |records| && !Chained(h, records[..k])
    ensures !Chained(h, records)
  {
    if Chained(h, records) {
      ChainedPrefix(h, records, k);
    }
  }

  // ---------------------------------------------------------------- tamper evidence

  /** Two ledgers of equal length that both verify and share a head hash are the same ledger. */
  lemma {:induction false} SameHeadSameLedger(h: Hasher, a: seq<Record>, b: seq<Record>)
    requires Injective(h) && Chained(h, a) && Chained(h, b)
    requires |a| == |b| && Head(a) == Head(b)
    ensures a == b
  {
    if a != [] {
      var n := |a| - 1;
      assert a == a[..n] + [a[n]] && b == b[..n] + [b[n]];
      assert Linked(h, a, n) && Linked(h, b, n);
      ChainedPrefix(h, a, n);
      ChainedPrefix(h, b, n);
      SameHeadSameLedger(h, a[..n], b[..n]);
    }
  }

  /** A signed checkpoint records how many records there were and the head hash. */
  datatype Checkpoint = Checkpoint(recordCount: nat, headHash: string)

  /** What a checkpoint says of a ledger. The code creates and verifies the signed checkpoint; comparing it
      with a ledger is the model's. */
  ghost predicate Matches(c: Checkpoint, records: seq<Record>) {
    c.recordCount <= |records| && Head(records[..c.recordCount]) == c.headHash
  }

  /** A checkpoint taken of a verified ledger pins that prefix of every verified ledger it matches,
      and exactly those ledgers are the original's continuations. */
  lemma CheckpointPinsPrefix(h: Hasher, original: seq<Record>, later: seq<Record>)
    requires Injective(h) && Chained(h, original) && Chained(h, later)
    ensures Matches(Checkpoint(|original|, Head(original)), later) <==> original <= later
  {
    var n := |original|;
    if Matches(Checkpoint(n, Head(original)), later) {
      ChainedPrefix(h, later, n);
      SameHeadSameLedger(h, original, later[..n]);
    }
    if original <= later {
      assert later[..n] == original;
    }
  }

  /** Changing one record of a verified ledger breaks verification or changes the head. */
  lemma EditDetected(h: Hasher, records: seq<Record>, i: nat, r: Record)
    requires Injective(h) && Chained(h, records) && i < |records| && r != records[i]
    ensures !Chained(h, records[i := r]) || Head(records[i := r]) != Head(records)
  {
    assert records[i := r] != records by { assert records[i := r][i] == r; }
    if Chained(h, records[i := r]) && Head(records[i := r]) == Head(records) {
      SameHeadSameLedger(h, records[i := r], records);
    }
  }

  /** Verification alone does not see truncation; the checkpoint's count does. */
  lemma TruncationNeedsCheckpoint(h: Hasher, records: seq<Record>, k: nat)
    requires Chained(h, records) && k < |records|
    ensures Chained(h, records[..k]) && !Matches(Checkpoint(|records|, Head(records)), records[..k])
  {
    ChainedPrefix(h, records, k);
  }
}
