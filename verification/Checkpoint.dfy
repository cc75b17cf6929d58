/** Signed checkpoints of the audit log (src/application/checkpoint.rs). Signatures are
    ideal: one verifies exactly when it was made with that key over those fields. */
module Checkpoints {
  import opened Prelude
  import opened AuditChain
  import opened AuditLog

  type Key = nat

  datatype Signature =
    | SignedBy(key: Key, country: string, seqNo: int, head: Hash, createdAt: int)
    | Forged(text: string)

  datatype Checkpoint = Checkpoint(
    country: string, seqNo: int, head: Hash, createdAt: int, publicKey: Key, signature: Signature)

  datatype Check =
    | Confirmed(keyIsLocal: bool) | BadSignature | WrongCountry
    | MissingSeq(localEvents: int) | HeadMismatch(localHead: Hash) | ChainBroken(atSeq: int)

  /** Signs the head of a chain that verifies and is not empty. */
  function Create(rows: seq<Row>, key: Key, country: string, now: int): Result<Checkpoint> {
    match Fresh(rows)
    case Broken(_) => Err(Conflict(Clash.ChainBroken))
    case Valid(events, head) =>
      if events == 0 then Err(Conflict(ChainEmpty))
      else Ok(Checkpoint(country, events, head, now, key, SignedBy(key, country, events, head, now)))
  }

  predicate SignatureHolds(c: Checkpoint) {
    c.signature == SignedBy(c.publicKey, c.country, c.seqNo, c.head, c.createdAt)
  }

  function Verdict(rows: seq<Row>, c: Checkpoint, country: string, localKey: Option<Key>): Check {
    if !SignatureHolds(c) then BadSignature
    else if c.country != country then WrongCountry
    else
      match Scan(Window(rows, 0, Some(c.seqNo)), 0, Genesis)
      case Broken(s) => Check.ChainBroken(s)
      case Valid(events, head) =>
        if events < c.seqNo then MissingSeq(events)
        else if head != c.head then HeadMismatch(head)
        else Confirmed(localKey == Some(c.publicKey))
  }

  /** A checkpoint is made exactly over a chain that verifies and has rows, with the key, the
      instance and the instant given; a broken or an empty chain is named as such. */
  lemma CreateIff(rows: seq<Row>, key: Key, country: string, now: int)
    ensures match Create(rows, key, country, now)
            case Ok(c) =>
              && Fresh(rows).Valid? && Fresh(rows).events != 0
              && c.seqNo == Fresh(rows).events && c.head == Fresh(rows).head
              && c.country == country && c.createdAt == now && c.publicKey == key
              && c.signature == SignedBy(key, country, c.seqNo, c.head, now)
            case Err(e) =>
              || (e == Conflict(Clash.ChainBroken) && Fresh(rows).Broken?)
              || (e == Conflict(ChainEmpty) && Fresh(rows).Valid? && Fresh(rows).events == 0)
  {
  }

  /** The signature is checked first, then the instance, then the chain. */
  lemma VerdictOrder(rows: seq<Row>, c: Checkpoint, country: string, localKey: Option<Key>)
    ensures var check := Verdict(rows, c, country, localKey);
            var signed := c.signature == SignedBy(c.publicKey, c.country, c.seqNo, c.head, c.createdAt);
            && (check == BadSignature <==> !signed)
            && (check == WrongCountry <==> signed && c.country != country)
            && (check.Confirmed? ==> (check.keyIsLocal <==> localKey == Some(c.publicKey)))
            && (check.ChainBroken? <==>
                  signed && c.country == country && Scan(Window(rows, 0, Some(c.seqNo)), 0, Genesis).Broken?)
  {
  }

  lemma VerifiedSeq(rows: seq<Row>, n: int)
    requires Scan(Window(rows, 0, Some(n)), 0, Genesis).Valid? && 0 <= n
    ensures Scan(Window(rows, 0, Some(n)), 0, Genesis).events <= n
  {
    var w := Window(rows, 0, Some(n));
    ScanEnd(w, 0, Genesis);
    WindowBelow(rows, 0, n);
  }

  lemma CreatedSeq(past: seq<Row>, key: Key, country: string, now: int)
    requires Increasing(past) && Create(past, key, country, now).Ok?
    ensures Create(past, key, country, now).value.seqNo > 0
  {
    var w := Window(past, 0, None);
    ScanEnd(w, 0, Genesis);
    WindowAbove(past, 0, None);
  }

  /** A checkpoint of this instance is confirmed by a log exactly when the log's rows up
      to its sequence number are, row by row, those the log held when it was signed. */
  lemma ConfirmedIff(past: seq<Row>, key: Key, country: string, now: int, rows: seq<Row>, localKey: Option<Key>)
    requires Increasing(past) && Increasing(rows) && Create(past, key, country, now).Ok?
    ensures var c := Create(past, key, country, now).value;
            Verdict(rows, c, country, localKey) == Confirmed(localKey == Some(key)) <==>
            Window(rows, 0, Some(c.seqNo)) == Window(past, 0, None)
  {
    var c := Create(past, key, country, now).value;
    var w := Window(rows, 0, Some(c.seqNo));
    CreatedSeq(past, key, country, now);
    if Scan(w, 0, Genesis).Valid? {
      VerifiedSeq(rows, c.seqNo);
      if Scan(w, 0, Genesis).events == c.seqNo && Scan(w, 0, Genesis).head == c.head {
        HeadFixesHistory(Window(past, 0, None), w);
      }
    }
    hide Window, Increasing;
  }

  /** Any number of appends keeps a checkpoint confirmed. */
  lemma StaysConfirmed(past: seq<Row>, key: Key, country: string, now: int, es: seq<Entry>, localKey: Option<Key>)
    requires Increasing(past) && Create(past, key, country, now).Ok?
    ensures Verdict(AppendAll(past, es), Create(past, key, country, now).value, country, localKey) ==
              Confirmed(localKey == Some(key))
  {
    var c := Create(past, key, country, now).value;
    AppendAllExtends(past, es);
    FreshIsSound(past, now);
    ReadStays(past, es, 0, c.seqNo);
    ScanEnd(Window(past, 0, None), 0, Genesis);
    WholeIsPrefix(past, c.seqNo);
    ConfirmedIff(past, key, country, now, AppendAll(past, es), localKey);
  }

  /** A log cut short below the checkpoint is reported missing, and a log that verifies
      to a different history of the same length is reported as a mismatch. */
  lemma RewritesAreNamed(past: seq<Row>, key: Key, country: string, now: int, rows: seq<Row>, localKey: Option<Key>)
    requires Increasing(past) && Increasing(rows) && Create(past, key, country, now).Ok?
    requires Fresh(rows).Valid?
    ensures var c := Create(past, key, country, now).value;
            var check := Verdict(rows, c, country, localKey);
            && (check.MissingSeq? <==> Fresh(rows).events < c.seqNo)
            && (check.HeadMismatch? <==>
                  Fresh(rows).events >= c.seqNo && Window(rows, 0, Some(c.seqNo)) != Window(past, 0, None))
  {
    var c := Create(past, key, country, now).value;
    CreatedSeq(past, key, country, now);
    WindowSplit(rows, 0, c.seqNo, None);
    var w, rest := Window(rows, 0, Some(c.seqNo)), Window(rows, c.seqNo, None);
    ScanAppend(w, rest, 0, Genesis);
    VerifiedSeq(rows, c.seqNo);
    var last, prev := Scan(w, 0, Genesis).events, Scan(w, 0, Genesis).head;
    ScanEnd(rest, last, prev);
    WindowAbove(rows, c.seqNo, None);
    assert rest != [] ==> Links(rest[0], last, prev) && rest[0].seqNo > c.seqNo;
    RestLonger(rest, last, prev);
    ConfirmedIff(past, key, country, now, rows, localKey);
    hide Window, Increasing, Links;
  }

  lemma {:induction false} RestLonger(rest: seq<Row>, last: int, prev: Hash)
    requires Scan(rest, last, prev).Valid?
    ensures Scan(rest, last, prev).events == last + |rest|
  {
    if rest != [] {
      RestLonger(rest[1..], rest[0].seqNo, rest[0].hash);
    }
  }

  class Notary {
    const log: Log
    var recorded: seq<Checkpoint>

    constructor (log: Log)
      ensures this.log == log && recorded == []
    {
      this.log, recorded := log, [];
    }

    /** Verifies the whole chain inside the write transaction, which no append can enter,
        and records what it signed. */
    method Sign(key: Key, country: string, now: int, page: nat) returns (r: Result<Checkpoint>)
      requires log.Stable() && page >= 1
      modifies this`recorded, log`rows
      ensures log.Stable() && log.rows == old(log.rows)
      ensures r == Create(log.rows, key, country, now)
      ensures recorded == old(recorded) + if r.Ok? then [r.value] else []
    {
      var status, _ := log.Walk(0, Genesis, None, map[], page, []);
      if status.Broken? {
        return Err(Conflict(Clash.ChainBroken));
      }
      if status.events == 0 {
        return Err(Conflict(ChainEmpty));
      }
      var c := Checkpoint(country, status.events, status.head, now, key,
                          SignedBy(key, country, status.events, status.head, now));
      recorded := recorded + [c];
      r := Ok(c);
    }

    method Verify(c: Checkpoint, country: string, localKey: Option<Key>, page: nat, others: seq<seq<Entry>>)
      returns (check: Check)
      requires log.Stable() && page >= 1
      modifies log`rows
      ensures log.Stable() && Grown(old(log.rows), log.rows)
      ensures check == Verdict(log.rows, c, country, localKey)
    {
      SelfGrown(log.rows);
      if !SignatureHolds(c) {
        return BadSignature;
      }
      if c.country != country {
        return WrongCountry;
      }
      var status, _ := log.Walk(0, Genesis, Some(c.seqNo), map[], page, others);
      match status
      case Broken(s) => check := Check.ChainBroken(s);
      case Valid(events, head) =>
        if events < c.seqNo {
          check := MissingSeq(events);
        } else if head != c.head {
          check := HeadMismatch(head);
        } else {
          check := Confirmed(localKey == Some(c.publicKey));
        }
    }
  }
}
