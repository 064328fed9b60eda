/**
 * The Bluetooth module: the module-level A2DP and BLE flags, the media
 * commands that are only sent while A2DP is open, the profile selection,
 * and the BLE response protocol (a `size:N` header followed by N chunks,
 * each cut at the first U+FFFD replacement character, UTF-8 bytes EF BF BD
 * as section 3 of RFC 3629 encodes it). The native handle is represented by
 * the log of calls made on it; its answers are inputs.
 */
module Bluetooth {
  import opened Common

  newtype byte = x: int | 0 <= x < 256

  /** Calls made on the native Bluetooth handle. */
  datatype NativeCall =
    | HandleOpen(name: string)
    | HandleClose
    | SendCommand(code: nat)
    | EnableA2dpSink
    | EnableA2dpLink
    | EnableA2dp
    | EnableBle(name: string)
    | DisableBle

  /** The five media commands and their wire codes. */
  datatype MediaCommand = Play | Stop | Pause | PlayNext | PlayPrev

  function CommandCode(c: MediaCommand): (code: nat)
    ensures code < 5
  {
    match c
    case Play => 0
    case Stop => 1
    case Pause => 2
    case PlayNext => 3
    case PlayPrev => 4
  }

  /** The partner of `CommandCode`: which command a code stands for. */
  function CommandOfCode(code: nat): (c: Option<MediaCommand>)
    ensures c.Some? <==> code < 5
  {
    if code == 0 then Some(Play)
    else if code == 1 then Some(Stop)
    else if code == 2 then Some(Pause)
    else if code == 3 then Some(PlayNext)
    else if code == 4 then Some(PlayPrev)
    else None
  }

  /** Every command has its own code. */
  lemma CommandCodeRoundTrip(c: MediaCommand)
    ensures CommandOfCode(CommandCode(c)) == Some(c)
  {
  }

  lemma CommandCodeInjective(c: MediaCommand, d: MediaCommand)
    requires CommandCode(c) == CommandCode(d)
    ensures c == d
  {
    CommandCodeRoundTrip(c);
    CommandCodeRoundTrip(d);
  }

  datatype BleOutcome = BleOpened | ReferenceError(message: string)

  /** The module state: both flags and the calls made on the native handle. */
  class BluetoothModule {
    const name: string
    var bleOpened: bool
    var a2dpOpened: bool
    var calls: seq<NativeCall>

    /** The module is loaded with both profiles closed. */
    constructor (name: string)
      ensures this.name == name
      ensures !bleOpened && !a2dpOpened && calls == []
    {
      this.name := name;
      bleOpened, a2dpOpened, calls := false, false, [];
    }

    /** The two profiles are never open at the same time. */
    predicate Exclusive()
      reads this
    {
      !(bleOpened && a2dpOpened)
    }

    /** `BluetoothLowEnergy.close`. */
    method BleClose()
      modifies this
      ensures !bleOpened && a2dpOpened == old(a2dpOpened)
      ensures calls == old(calls) + [DisableBle]
    {
      calls := calls + [DisableBle];
      bleOpened := false;
    }

    /** `open`: closes BLE if it is open, then opens A2DP. */
    method Open()
      modifies this
      ensures a2dpOpened && !bleOpened
      ensures calls == old(calls) + (if old(bleOpened) then [DisableBle] else []) + [HandleOpen(name)]
    {
      if bleOpened {
        BleClose();
      }
      calls := calls + [HandleOpen(name)];
      a2dpOpened := true;
    }

    /** `close`: closes A2DP. */
    method Close()
      modifies this
      ensures !a2dpOpened && bleOpened == old(bleOpened)
      ensures calls == old(calls) + [HandleClose]
    {
      calls := calls + [HandleClose];
      a2dpOpened := false;
    }

    /** `play`, `stop`, `pause`, `playNext`, `playPrev`: sent only while A2DP is open. */
    method Send(c: MediaCommand)
      modifies this`calls
      ensures old(a2dpOpened) ==> calls == old(calls) + [SendCommand(CommandCode(c))]
      ensures !old(a2dpOpened) ==> calls == old(calls)
    {
      if a2dpOpened {
        calls := calls + [SendCommand(CommandCode(c))];
      }
    }

    /** `a2dp(type)`: the sink profile, the link profile, or plain A2DP for anything else. */
    method A2dp(profile: string)
      modifies this`calls
      ensures profile == "sink" ==> calls == old(calls) + [EnableA2dpSink]
      ensures profile == "link" ==> calls == old(calls) + [EnableA2dpLink]
      ensures profile != "sink" && profile != "link" ==> calls == old(calls) + [EnableA2dp]
    {
      if profile == "sink" {
        calls := calls + [EnableA2dpSink];
      } else if profile == "link" {
        calls := calls + [EnableA2dpLink];
      } else {
        calls := calls + [EnableA2dp];
      }
    }

    /**
     * `BluetoothLowEnergy.open` as written: when A2DP is open it calls a
     * `close` that is not in scope, so it throws before touching anything.
     */
    method BleOpenAsWritten() returns (r: BleOutcome)
      modifies this
      ensures old(a2dpOpened) ==> r.ReferenceError? && bleOpened == old(bleOpened) && a2dpOpened && calls == old(calls)
      ensures !old(a2dpOpened) ==> r == BleOpened && bleOpened && !a2dpOpened && calls == old(calls) + [EnableBle(name)]
    {
      if a2dpOpened {
        return ReferenceError("close is not defined");
      }
      calls := calls + [EnableBle(name)];
      bleOpened := true;
      r := BleOpened;
    }

    /** `BluetoothLowEnergy.open` as evidently intended: closes A2DP first, like `open` closes BLE. */
    method BleOpen()
      modifies this
      ensures bleOpened && !a2dpOpened
      ensures calls == old(calls) + (if old(a2dpOpened) then [HandleClose] else []) + [EnableBle(name)]
    {
      if a2dpOpened {
        Close();
      }
      calls := calls + [EnableBle(name)];
      bleOpened := true;
    }

    /**
     * `ble(name)`: closes BLE if it is open, then opens it again through
     * `BluetoothLowEnergy.open` as written, which throws while A2DP is open.
     */
    method Ble() returns (r: BleOutcome)
      modifies this
      ensures old(a2dpOpened) ==>
        r.ReferenceError? && !bleOpened && a2dpOpened && calls == old(calls) + (if old(bleOpened) then [DisableBle] else [])
      ensures !old(a2dpOpened) ==>
        r == BleOpened && bleOpened && !a2dpOpened
        && calls == old(calls) + (if old(bleOpened) then [DisableBle] else []) + [EnableBle(name)]
    {
      if bleOpened {
        BleClose();
      }
      r := BleOpenAsWritten();
    }
  }

  /** With the `close` that is not in scope, BLE cannot be opened while A2DP is open. */
  method BleAfterA2dpAsWritten(name: string) returns (r: BleOutcome, ble: bool)
    ensures r.ReferenceError? && !ble
  {
    var m := new BluetoothModule(name);
    m.Open();
    r := m.BleOpenAsWritten();
    ble := m.bleOpened;
  }

  /** Every operation of the module, as written and with the intended BLE opening, keeps the two profiles exclusive. */
  method ExclusiveAfterAnyOperation(m: BluetoothModule, op: nat, c: MediaCommand)
    requires m.Exclusive()
    modifies m
    ensures m.Exclusive()
  {
    if op == 0 {
      m.Open();
    } else if op == 1 {
      m.Close();
    } else if op == 2 {
      m.BleOpen();
    } else if op == 3 {
      m.BleClose();
    } else if op == 4 {
      var _ := m.Ble();
    } else if op == 5 {
      var _ := m.BleOpenAsWritten();
    } else {
      m.Send(c);
    }
  }

  // ---- the BLE response protocol ----

  /** The header `size:N` (at the start of the data) announces N chunks; anything else announces 0. */
  function ParseHeader(data: string): (size: nat)
    ensures (|data| <= 5 || data[..5] != "size:" || !IsDigit(data[5])) ==> size == 0
  {
    if |data| > 5 && data[..5] == "size:" then
      match ReadNat(data[5..])
      case None => 0
      case Some((n, _)) => n
    else 0
  }

  /** The partner of `ParseHeader`: the header a sender writes for `n` chunks. */
  function Header(n: nat): string {
    "size:" + NatToString(n)
  }

  /** The announced size is read back from any header, whatever follows the digits. */
  lemma {:induction false} ParseHeaderOfHeader(n: nat, rest: string)
    requires StopsDigits(rest)
    ensures ParseHeader(Header(n) + rest) == n
  {
    var data := Header(n) + rest;
    assert data[..5] == "size:";
    assert data[5..] == NatToString(n) + rest;
    ReadNatOfNatToString(n, rest);
  }

  /** Bytes EF BF BD, the UTF-8 encoding of U+FFFD, start at `i`. */
  predicate ReplacementAt(buf: seq<byte>, i: int) {
    0 <= i && i + 2 < |buf| && buf[i] == 0xEF && buf[i + 1] == 0xBF && buf[i + 2] == 0xBD
  }

  /** The first position at or after `from` where a replacement character starts, or `|buf|`. */
  function CutFrom(buf: seq<byte>, from: nat): (p: nat)
    requires from <= |buf|
    ensures from <= p <= |buf|
    ensures p < |buf| ==> ReplacementAt(buf, p)
    ensures forall j :: from <= j < p ==> !ReplacementAt(buf, j)
    decreases |buf| - from
  {
    if from == |buf| then |buf|
    else if ReplacementAt(buf, from) then from
    else CutFrom(buf, from + 1)
  }

  /** Where a chunk is cut: before its first replacement character, or nowhere. */
  function CutPos(buf: seq<byte>): nat {
    CutFrom(buf, 0)
  }

  /** The scan of one chunk for its end position. */
  method ChunkEnd(buf: seq<byte>) returns (endPos: nat)
    ensures endPos <= |buf|
    ensures endPos < |buf| ==> ReplacementAt(buf, endPos)
    ensures forall j :: 0 <= j < endPos ==> !ReplacementAt(buf, j)
    ensures endPos == CutPos(buf)
  {
    endPos := |buf|;
    var i := 0;
    while i < |buf|
      invariant 0 <= i <= |buf|
      invariant forall j :: 0 <= j < i ==> !ReplacementAt(buf, j)
      invariant CutPos(buf) == CutFrom(buf, i)
    {
      if buf[i] == 0xEF && i + 1 < |buf| && buf[i + 1] == 0xBF && i + 2 < |buf| && buf[i + 2] == 0xBD {
        endPos := i;
        return;
      }
      i := i + 1;
    }
  }

  /** One answer of the native `getBleResp`. */
  datatype Reply = Data(bytes: seq<byte>) | ReadError

  /** The concatenation, in order, of the cut chunks of a run of successful replies. */
  function CutAll(rs: seq<Reply>): seq<byte>
    requires forall i :: 0 <= i < |rs| ==> rs[i].Data?
  {
    if rs == [] then []
    else
      var last := rs[|rs| - 1].bytes;
      CutAll(rs[..|rs| - 1]) + last[..CutPos(last)]
  }

  datatype Resp = RespOk(data: seq<byte>) | RespError

  /**
   * `getResp(concated, size)`: reads `size` chunks, one native reply at a
   * time, appending each cut chunk; the first failed reply ends it with the
   * error. `replies` are the native side's answers in order.
   */
  method GetResp(concated: seq<byte>, size: nat, replies: seq<Reply>) returns (r: Resp)
    requires size <= |replies|
    ensures r.RespOk? <==> forall i :: 0 <= i < size ==> replies[i].Data?
    ensures r.RespOk? ==> r.data == concated + CutAll(replies[..size])
    ensures size == 0 ==> r == RespOk(concated)
  {
    var acc := concated;
    var k := 0;
    while k < size
      invariant 0 <= k <= size
      invariant forall i :: 0 <= i < k ==> replies[i].Data?
      invariant acc == concated + CutAll(replies[..k])
    {
      match replies[k]
      case ReadError =>
        return RespError;
      case Data(buf) =>
        var endPos := ChunkEnd(buf);
        assert replies[..k + 1][..k] == replies[..k];
        acc := acc + buf[..endPos];
      k := k + 1;
    }
    r := RespOk(acc);
  }

  /** The header read of `onResp`: its answer, or the failure (after which the size is `undefined`). */
  datatype HeaderReply = HeaderData(text: string) | HeaderError

  /**
   * `onResp`: reads the header, then the announced number of chunks into an
   * empty accumulator. A failed header read leaves the size `undefined`, which
   * `getResp` treats like 0: the callback gets an empty response, not the error.
   */
  method OnResp(header: HeaderReply, replies: seq<Reply>) returns (r: Resp)
    requires header.HeaderData? ==> ParseHeader(header.text) <= |replies|
    ensures header.HeaderError? ==> r == RespOk([])
    ensures header.HeaderData? && ParseHeader(header.text) == 0 ==> r == RespOk([])
    ensures header.HeaderData? ==>
      (r.RespOk? <==> forall i :: 0 <= i < ParseHeader(header.text) ==> replies[i].Data?)
    ensures header.HeaderData? && r.RespOk? ==> r.data == CutAll(replies[..ParseHeader(header.text)])
  {
    var size := if header.HeaderData? then ParseHeader(header.text) else 0;
    r := GetResp([], size, replies);
  }
}
