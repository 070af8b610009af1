/** Reading a viewing key from the device: one command, then continuations until the length
    the first response announces has been delivered. */
module LedgerUfvk {
  import opened Common

  const STATUS_SIZE := 2
  const MAX_UFVK_RESPONSE := 8 * 1024

  type Response = seq<byte>

  predicate Succeeds(r: Response) {
    |r| >= STATUS_SIZE && r[|r| - 2] == 0x90 && r[|r| - 1] == 0x00
  }

  /** The payload delivered so far, without the status bytes. */
  function Delivered(rs: seq<Response>): seq<byte> {
    if rs == [] then []
    else
      var r := rs[|rs| - 1];
      Delivered(rs[..|rs| - 1]) + if |r| >= STATUS_SIZE then r[..|r| - STATUS_SIZE] else []
  }

  function Announced(first: Response): nat
    requires |first| >= 4
  {
    var high: int, low: int := first[0], first[1];
    2 + high * 256 + low
  }

  /** A first response that starts a delivery of acceptable length. */
  predicate Begins(first: Response) {
    Succeeds(first) && |first| >= 4 && Announced(first) <= MAX_UFVK_RESPONSE
  }

  /** After these responses there is nothing more to ask: the delivery did not begin, a
      continuation failed or was empty, or everything announced is there. */
  predicate Finished(rs: seq<Response>)
    requires rs != []
  {
    var last := rs[|rs| - 1];
    || !Begins(rs[0])
    || (|rs| > 1 && (!Succeeds(last) || |last| == STATUS_SIZE))
    || |Delivered(rs)| >= Announced(rs[0])
  }

  /** Nothing to ask after all of them, but something after every shorter beginning. */
  ghost predicate ExactlyFinished(rs: seq<Response>) {
    rs != [] && Finished(rs) && Unfinished(rs, |rs| - 1)
  }

  ghost predicate Unfinished(rs: seq<Response>, n: int) {
    forall k :: 1 <= k <= n && k <= |rs| ==> !Finished(rs[..k])
  }

  lemma {:induction false} UnfinishedDelivers(rs: seq<Response>)
    requires rs != [] && Unfinished(rs, |rs|)
    ensures Begins(rs[0]) && |rs| < |Delivered(rs)| < Announced(rs[0])
    decreases |rs|
  {
    assert rs[..|rs|] == rs;
    assert !Finished(rs[..|rs|]);
    var before := rs[..|rs| - 1];
    if before != [] {
      assert forall k :: 1 <= k <= |before| ==> before[..k] == rs[..k];
      UnfinishedDelivers(before);
    }
  }

  /** Whatever the device answers: every continuation brings at least one byte of at most
      8192, so no more than 8190 responses leave anything to ask for. */
  lemma ExchangesAreBounded(rs: seq<Response>)
    requires rs != [] && Unfinished(rs, |rs|)
    ensures |rs| < MAX_UFVK_RESPONSE - 1
  {
    UnfinishedDelivers(rs);
  }

  /** The device: its answer to the `n`th exchange, or nothing when that throws. */
  type Device = nat -> Option<Response>

  /** The first `n` answers of a device. */
  ghost predicate AnsweredBy(device: Device, rs: seq<Response>) {
    forall k :: 0 <= k < |rs| ==> device(k) == Some(rs[k])
  }

  /** Stops at the first response that finishes the exchange, or at the first that throws. */
  method ExchangeUfvk(device: Device) returns (responses: Option<seq<Response>>, ghost asked: seq<Response>)
    ensures AnsweredBy(device, asked) && |asked| < MAX_UFVK_RESPONSE
    ensures responses.Some? ==> responses.value == asked
    ensures responses.Some? ==> ExactlyFinished(responses.value) && AnsweredBy(device, responses.value)
    ensures responses.None? ==> Unfinished(asked, |asked|) && device(|asked|).None?
  {
    asked := [];
    var reply := device(0);
    if reply.None? { return None, []; }
    var first := reply.value;
    var rs := [first];
    asked := rs;
    assert Delivered(rs) == Delivered([]) + if |first| >= STATUS_SIZE then first[..|first| - STATUS_SIZE] else [] by {
      assert rs[..0] == [];
    }
    if !Succeeds(first) || |first| < 4 { return Some(rs), rs; }
    var high: int, low: int := first[0], first[1];
    var announced := 2 + high * 256 + low;
    if announced > MAX_UFVK_RESPONSE { return Some(rs), rs; }
    var delivered := |first| - STATUS_SIZE;
    while delivered < announced
      invariant asked == rs && rs != [] && rs[0] == first && AnsweredBy(device, rs)
      invariant delivered == |Delivered(rs)|
      invariant Unfinished(rs, |rs| - 1)
      invariant delivered >= announced <==> Finished(rs)
      decreases announced - delivered
    {
      assert Unfinished(rs, |rs|) by { assert rs[..|rs|] == rs; }
      ExchangesAreBounded(rs);
      reply := device(|rs|);
      if reply.None? { return None, rs; }
      var r := reply.value;
      ghost var before := rs;
      rs := rs + [r];
      asked := rs;
      Extends(before, r);
      if !Succeeds(r) || |r| == STATUS_SIZE { return Some(rs), rs; }
      delivered := delivered + |r| - STATUS_SIZE;
    }
    if |rs| > 1 {
      var shorter := rs[..|rs| - 1];
      assert forall k :: 1 <= k <= |shorter| ==> shorter[..k] == rs[..k];
      ExchangesAreBounded(shorter);
    }
    return Some(rs), rs;
  }

  lemma Extends(before: seq<Response>, r: Response)
    requires before != [] && Unfinished(before, |before|)
    ensures var rs := before + [r];
            && Unfinished(rs, |rs| - 1)
            && Delivered(rs) == Delivered(before) + if |r| >= STATUS_SIZE then r[..|r| - STATUS_SIZE] else []
  {
    var rs := before + [r];
    assert rs[..|rs| - 1] == before;
    assert forall k :: 1 <= k <= |before| ==> rs[..k] == before[..k];
  }

  function Header(key: seq<byte>): seq<byte>
    requires |key| < 0x1_0000
  {
    [|key| / 256, |key| % 256]
  }

  /** A device that sends a key behind a header of its length, in whatever chunks, is read
      completely: nothing of the key is missing when the exchange finishes. */
  lemma KeyIsDelivered(rs: seq<Response>, key: seq<byte>, beyond: seq<byte>)
    requires ExactlyFinished(rs) && Begins(rs[0]) && (|rs| > 1 ==> Succeeds(rs[|rs| - 1]) && |rs[|rs| - 1]| > STATUS_SIZE)
    requires |key| < 0x1_0000
    requires Delivered(rs) <= Header(key) + key + beyond
    ensures Header(key) + key <= Delivered(rs) && Announced(rs[0]) == 2 + |key|
  {
    var all := Header(key) + key + beyond;
    FirstIsPrefix(rs, 1);
    assert rs[..1][..0] == [];
    assert Delivered(rs[..1]) == rs[0][..|rs[0]| - STATUS_SIZE];
    assert all[0] == Delivered(rs)[0] == rs[0][0] && all[1] == Delivered(rs)[1] == rs[0][1];
    assert Header(key) + key == all[..2 + |key|] == Delivered(rs)[..2 + |key|];
  }

  lemma {:induction false} FirstIsPrefix(rs: seq<Response>, n: nat)
    requires n <= |rs|
    ensures Delivered(rs[..n]) <= Delivered(rs)
    decreases |rs|
  {
    if n < |rs| {
      FirstIsPrefix(rs[..|rs| - 1], n);
      assert rs[..|rs| - 1][..n] == rs[..n];
    } else {
      assert rs[..n] == rs;
    }
  }
}
