/**
 The text a ledger row's hash is computed from, and why no two rows share it.
 */
module LedgerHash {
  import opened Common

  // What the platform provides: SHA-256 in hex (section 6.2 of FIPS 180-4), the ISO form of an
  // instant, and the key an advisory lock is taken on.
  datatype Platform = Platform(sha: string -> string, iso: nat -> string, lockKey: string -> int) {
    // Digests are hexadecimal; the ISO form has no '|' and tells instants apart.  Nothing is
    // assumed about collisions of `sha`: the theorems exhibit them instead.
    ghost predicate Sound() {
      && (forall s :: Hex(sha(s)))
      && (forall t :: PipeFree(iso(t)))
      && (forall t, u :: iso(t) == iso(u) ==> t == u)
    }
  }

  predicate Hex(s: string) {
    forall i :: 0 <= i < |s| ==> '0' <= s[i] <= '9' || 'a' <= s[i] <= 'f'
  }

  predicate PipeFree(s: string) {
    '|' !in s
  }

  datatype EventType =
    | BatchCreated | OwnershipTransferred | ProcessingCompleted
    | WarehouseStored | SaleRecorded | QualityGraded
  {
    function Name(): string {
      match this
      case BatchCreated => "BATCH_CREATED"
      case OwnershipTransferred => "OWNERSHIP_TRANSFERRED"
      case ProcessingCompleted => "PROCESSING_COMPLETED"
      case WarehouseStored => "WAREHOUSE_STORED"
      case SaleRecorded => "SALE_RECORDED"
      case QualityGraded => "QUALITY_GRADED"
    }
  }

  // The parts with a pipe between each two.
  function Join(parts: seq<string>): string {
    if |parts| == 0 then ""
    else if |parts| == 1 then parts[0]
    else parts[0] + "|" + Join(parts[1..])
  }

  function Preimage(p: Platform, previous: Option<string>, payloadHash: string, event: EventType, batch: string, at: nat): string {
    Join([if previous.Some? then previous.value else "genesis", payloadHash, event.Name(), batch, p.iso(at)])
  }

  function ComputeBlockHash(
    p: Platform, previous: Option<string>, payloadHash: string, event: EventType, batch: string, at: nat): string
  {
    p.sha(Preimage(p, previous, payloadHash, event, batch, at))
  }

  // Two different texts with one digest.
  ghost predicate Collision(p: Platform, x: string, y: string) {
    x != y && p.sha(x) == p.sha(y)
  }

  // ---------------------------------------------------------------------------
  // The join can be read back
  // ---------------------------------------------------------------------------

  lemma SplitFront(a: string, b: string, a': string, b': string)
    requires PipeFree(a) && PipeFree(a') && a + "|" + b == a' + "|" + b'
    ensures a == a' && b == b'
  {
    var s := a + "|" + b;
    assert forall i :: 0 <= i < |a| ==> s[i] == a[i];
    assert forall i :: 0 <= i < |a'| ==> s[i] == a'[i];
    assert s[|a|] == '|' && s[|a'|] == '|';
    assert |a| == |a'|;
    assert a == s[..|a|] == a' && b == s[|a| + 1..] == b';
  }

  lemma SplitBack(a: string, b: string, a': string, b': string)
    requires PipeFree(b) && PipeFree(b') && a + "|" + b == a' + "|" + b'
    ensures a == a' && b == b'
  {
    var s := a + "|" + b;
    assert forall i :: |a| < i < |s| ==> s[i] == b[i - |a| - 1];
    assert forall i :: |a'| < i < |s| ==> s[i] == b'[i - |a'| - 1];
    assert s[|a|] == '|' && s[|a'|] == '|';
    assert |a| == |a'|;
    assert a == s[..|a|] == a' && b == s[|a| + 1..] == b';
  }

  lemma JoinOfFive(a: string, b: string, c: string, d: string, e: string)
    ensures Join([a, b, c, d, e]) == a + "|" + (((b + "|" + c) + "|" + d) + "|" + e)
  {
    assert [a, b, c, d, e][1..] == [b, c, d, e];
    assert [b, c, d, e][1..] == [c, d, e];
    assert [c, d, e][1..] == [d, e];
    assert [d, e][1..] == [e];
    assert Join([d, e]) == d + "|" + e;
    assert Join([c, d, e]) == c + "|" + (d + "|" + e);
    assert Join([b, c, d, e]) == b + "|" + (c + "|" + (d + "|" + e));
    assert b + "|" + (c + "|" + (d + "|" + e)) == ((b + "|" + c) + "|" + d) + "|" + e;
  }

  // The text that is hashed, spelled out: predecessor, payload hash, event, batch, instant.
  lemma PreimageLayout(p: Platform, previous: Option<string>, payloadHash: string, event: EventType, batch: string, at: nat)
    ensures Preimage(p, previous, payloadHash, event, batch, at) ==
      (if previous == None then "genesis" else previous.value)
      + "|" + payloadHash + "|" + event.Name() + "|" + batch + "|" + p.iso(at)
  {
    var first := if previous.Some? then previous.value else "genesis";
    JoinOfFive(first, payloadHash, event.Name(), batch, p.iso(at));
    Reassociate(first, payloadHash, event.Name(), batch, p.iso(at));
  }

  lemma Reassociate(a: string, b: string, c: string, d: string, e: string)
    ensures a + "|" + (((b + "|" + c) + "|" + d) + "|" + e) == a + "|" + b + "|" + c + "|" + d + "|" + e
  {
  }

  // The second part may hold anything, pipes included: the first is read off the front and the
  // last three off the back.
  lemma JoinInjective(a: string, b: string, c: string, d: string, e: string,
                      a': string, b': string, c': string, d': string, e': string)
    requires PipeFree(a) && PipeFree(c) && PipeFree(d) && PipeFree(e)
    requires PipeFree(a') && PipeFree(c') && PipeFree(d') && PipeFree(e')
    requires Join([a, b, c, d, e]) == Join([a', b', c', d', e'])
    ensures a == a' && b == b' && c == c' && d == d' && e == e'
  {
    JoinOfFive(a, b, c, d, e);
    JoinOfFive(a', b', c', d', e');
    SplitFront(a, ((b + "|" + c) + "|" + d) + "|" + e, a', ((b' + "|" + c') + "|" + d') + "|" + e');
    SplitBack((b + "|" + c) + "|" + d, e, (b' + "|" + c') + "|" + d', e');
    SplitBack(b + "|" + c, d, b' + "|" + c', d');
    SplitBack(b, c, b', c');
  }

  lemma NamesDiffer(e: EventType, f: EventType)
    ensures PipeFree(e.Name()) && (e.Name() == f.Name() ==> e == f)
  {
    // The only two names of one length.
    assert BatchCreated.Name()[0] == 'B' && SaleRecorded.Name()[0] == 'S';
  }

  lemma HexHasNoPipe(s: string)
    requires Hex(s)
    ensures PipeFree(s) && s != "genesis"
  {
    assert !Hex("genesis") by {
      assert "genesis"[0] == 'g';
    }
  }

  ghost predicate HexLink(previous: Option<string>) {
    previous.Some? ==> Hex(previous.value)
  }

  // Rows with the same text agree in every hashed column.
  lemma PreimageInjective(p: Platform,
                          previous: Option<string>, payloadHash: string, event: EventType, batch: string, at: nat,
                          previous': Option<string>, payloadHash': string, event': EventType, batch': string, at': nat)
    requires p.Sound() && PipeFree(batch) && PipeFree(batch') && HexLink(previous) && HexLink(previous')
    requires Preimage(p, previous, payloadHash, event, batch, at) == Preimage(p, previous', payloadHash', event', batch', at')
    ensures previous == previous' && payloadHash == payloadHash' && event == event' && batch == batch' && at == at'
  {
    NamesDiffer(event, event');
    NamesDiffer(event', event);
    assert PipeFree("genesis");
    if previous.Some? { HexHasNoPipe(previous.value); }
    if previous'.Some? { HexHasNoPipe(previous'.value); }
    JoinInjective(if previous.Some? then previous.value else "genesis", payloadHash, event.Name(), batch, p.iso(at),
                  if previous'.Some? then previous'.value else "genesis", payloadHash', event'.Name(), batch', p.iso(at'));
  }
}
