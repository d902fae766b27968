/** The Eurotherm 818 furnace controller over the EI-Bisynch protocol
    (ANSI X3.28, subcategories 2.5 and A4): the frames the driver sends, the
    reading of a reply, and the PID parameter string. */
module Eurotherm {
  import opened Wrappers
  import opened Text

  // The ASCII transmission control characters of ANSI X3.28.
  const STX: char := 2 as char
  const ETX: char := 3 as char
  const EOT: char := 4 as char
  const ENQ: char := 5 as char

  // The mnemonics of the parameters the furnace controller reads and writes.
  const Setpoint: string := "SL"
  const ProcessValue: string := "PV"
  const Output: string := "OP"

  /** `unit_address`: the group id written twice, then the unit id written
      twice. */
  function UnitAddress(gid: int, uid: int): (r: string)
    ensures |r| == 2 * |IntToString(gid)| + 2 * |IntToString(uid)|
  {
    IntToString(gid) + IntToString(gid) + IntToString(uid) + IntToString(uid)
  }

  /** A unit with single-digit ids has a four-character address whose
      first and third characters read back as the group id and the unit id,
      each repeated once. */
  lemma UnitAddressDigits(gid: int, uid: int)
    requires 0 <= gid < 10 && 0 <= uid < 10
    ensures var a := UnitAddress(gid, uid);
      && |a| == 4 && a[1] == a[0] && a[3] == a[2]
      && ParseInt(a[..1]) == Ok(gid) && ParseInt(a[2..3]) == Ok(uid)
  {
    var a := UnitAddress(gid, uid);
    var g, u := IntToString(gid), IntToString(uid);
    SingleDigit(gid);
    SingleDigit(uid);
    assert a == g + g + u + u;
    assert a[0] == g[0] && a[1] == g[0] && a[2] == u[0] && a[3] == u[0];
    assert a[..1] == g;
    assert a[2..3] == u;
    ParseIntOfString(gid);
    ParseIntOfString(uid);
  }

  lemma SingleDigit(n: int)
    requires 0 <= n < 10
    ensures |IntToString(n)| == 1
  {
  }

  /** The frame `enquiry` sends: EOT, the address, the mnemonic, ENQ. */
  function EnquiryFrame(address: string, mnemonic: string): (r: string)
    ensures |r| == |address| + |mnemonic| + 2
    ensures r[0] == EOT && r[|r| - 1] == ENQ
    ensures r[1..|address| + 1] == address && r[|address| + 1..|r| - 1] == mnemonic
  {
    [EOT] + address + mnemonic + [ENQ]
  }

  /** The packet of `change`: the mnemonic, the value, ETX. */
  function Packet(mnemonic: string, value: string): (r: string)
    ensures |r| == |mnemonic| + |value| + 1 && r[|r| - 1] == ETX
    ensures r[..|mnemonic|] == mnemonic && r[|mnemonic|..|r| - 1] == value
  {
    mnemonic + value + [ETX]
  }

  /** The frame `change` sends: EOT, the address, STX, the packet and the
      block check character computed over the packet alone. */
  function ChangeFrame(address: string, mnemonic: string, value: string, bcc: string -> string): (r: string)
    ensures var p := Packet(mnemonic, value);
      && |r| == |address| + 2 + |p| + |bcc(p)|
      && r[0] == EOT && r[1..|address| + 1] == address && r[|address| + 1] == STX
      && r[|address| + 2..] == p + bcc(p)
  {
    [EOT] + address + [STX] + Packet(mnemonic, value) + bcc(Packet(mnemonic, value))
  }

  /** The block check character covers the packet only: two units sent the
      same change differ only in their addresses. */
  lemma ChangeFrameAddressOnly(a1: string, a2: string, mnemonic: string, value: string, bcc: string -> string)
    ensures ChangeFrame(a1, mnemonic, value, bcc)[|a1| + 1..] == ChangeFrame(a2, mnemonic, value, bcc)[|a2| + 1..]
  {
    var p := Packet(mnemonic, value);
    assert ChangeFrame(a1, mnemonic, value, bcc)[|a1| + 1..] == [STX] + p + bcc(p);
    assert ChangeFrame(a2, mnemonic, value, bcc)[|a2| + 1..] == [STX] + p + bcc(p);
  }

  /** Python's `resp[3:-3]`: the text between the first three and the last
      three characters, empty when there is none. */
  function Middle(resp: string): (r: string)
    ensures |resp| >= 6 ==> |r| == |resp| - 6 && resp == resp[..3] + r + resp[|resp| - 3..]
    ensures |resp| < 6 ==> r == []
  {
    if |resp| >= 6 then resp[3..|resp| - 3] else []
  }

  /** The value text of a reply to an enquiry: nothing for an absent or
      empty reply; IndexError for a reply too short to have a
      third-from-last character; else the characters between STX and the
      two-character mnemonic and the ETX and the two BCC characters. */
  function ReplyText(resp: Option<string>): (r: Result<Option<string>>)
    ensures (resp.None? || resp == Some([])) <==> r == Ok(None)
    ensures r == Err(IndexError) <==> resp.Some? && 1 <= |resp.value| < 3
    ensures r.Ok? && r.value.Some? ==> |resp.value| >= 3 && r.value.value == Middle(resp.value)
  {
    if resp.None? || resp.value == [] then Ok(None)
    else if |resp.value| < 3 then Err(IndexError)
    else Ok(Some(Middle(resp.value)))
  }

  /** What `enquiry` returns for a reply, with `float` as a parameter (None
      when it raises ValueError). */
  function EnquiryValue(resp: Option<string>, float: string -> Option<real>): (r: Result<Option<real>>)
    ensures ReplyText(resp) == Ok(None) ==> r == Ok(None)
    ensures ReplyText(resp).Err? ==> r == Err(ReplyText(resp).error)
    ensures ReplyText(resp).Ok? && ReplyText(resp).value.Some? ==>
      var text := ReplyText(resp).value.value;
      r == (if float(text).None? then Err(ValueError) else Ok(Some(float(text).value)))
  {
    match ReplyText(resp)
    case Err(e) => Err(e)
    case Ok(None) => Ok(None)
    case Ok(Some(text)) =>
      match float(text)
      case None => Err(ValueError)
      case Some(x) => Ok(Some(x))
  }

  /** A frame laid out as a change is (STX, a two-character mnemonic, the
      value, ETX, a two-character BCC) reads back to the value it carries:
      the slicing of `enquiry` inverts the packet of `change`. */
  lemma ReplyTextOfChange(address: string, mnemonic: string, value: string, bcc: string -> string)
    requires |mnemonic| == 2 && |bcc(Packet(mnemonic, value))| == 2
    ensures ReplyText(Some(ChangeFrame(address, mnemonic, value, bcc)[|address| + 1..])) == Ok(Some(value))
  {
    var p := Packet(mnemonic, value);
    var reply := ChangeFrame(address, mnemonic, value, bcc)[|address| + 1..];
    assert reply == [STX] + p + bcc(p);
    assert reply[3..|reply| - 3] == p[2..|p| - 1];
  }

  /** One item `cmd,value` of a PID string: `cmd, value = pa.split(',')`,
      which raises ValueError unless there are exactly two parts. */
  function PidCommand(pa: string): (r: Option<(string, string)>)
    ensures r.Some? ==> ',' !in r.value.0 && ',' !in r.value.1 && pa == r.value.0 + "," + r.value.1
  {
    SplitPair(pa, ',')
  }

  /** A command joined back with a comma parses to itself. */
  lemma PidCommandOfPair(cmd: string, value: string)
    requires ',' !in cmd && ',' !in value
    ensures PidCommand(cmd + "," + value) == Some((cmd, value))
  {
    SplitPairOfJoined(cmd, value, ',');
  }

  /** The commands `set_pid` sends, in order, up to the first item that is
      not a `cmd,value` pair. */
  function PidCommands(items: seq<string>): (r: seq<(string, string)>)
    ensures |r| <= |items|
  {
    if items == [] then []
    else match PidCommand(items[0])
      case None => []
      case Some(c) => [c] + PidCommands(items[1..])
  }

  /** The commands are those of the leading items that are pairs, and the
      first item left over is not a pair. */
  lemma {:induction false} PidCommandsPrefix(items: seq<string>)
    ensures var r := PidCommands(items);
      && (forall k :: 0 <= k < |r| ==> PidCommand(items[k]) == Some(r[k]))
      && (|r| < |items| ==> PidCommand(items[|r|]).None?)
  {
    if items != [] && PidCommand(items[0]).Some? {
      PidCommandsPrefix(items[1..]);
    }
  }

  /** Whether every item of the PID string is a `cmd,value` pair. */
  predicate AllPairs(items: seq<string>)
  {
    forall k :: 0 <= k < |items| ==> PidCommand(items[k]).Some?
  }

  /** Every item is sent exactly when every item is a pair. */
  lemma PidCommandsAll(items: seq<string>)
    ensures |PidCommands(items)| == |items| <==> AllPairs(items)
  {
    var r := PidCommands(items);
    PidCommandsPrefix(items);
    if |r| < |items| {
      assert PidCommand(items[|r|]).None?;
    }
  }

  /** The change frames of a sequence of commands, in order. */
  function ChangeFrames(address: string, cmds: seq<(string, string)>, bcc: string -> string): (r: seq<string>)
    ensures |r| == |cmds|
  {
    if cmds == [] then []
    else ChangeFrames(address, cmds[..|cmds| - 1], bcc) + [ChangeFrame(address, cmds[|cmds| - 1].0, cmds[|cmds| - 1].1, bcc)]
  }

  /** Frame `k` is the change of command `k`. */
  lemma {:induction false} ChangeFramesAt(address: string, cmds: seq<(string, string)>, bcc: string -> string)
    ensures forall k :: 0 <= k < |cmds| ==>
      ChangeFrames(address, cmds, bcc)[k] == ChangeFrame(address, cmds[k].0, cmds[k].1, bcc)
  {
    if cmds != [] {
      ChangeFramesAt(address, cmds[..|cmds| - 1], bcc);
    }
  }

  /** The commands from item `k` on: none when that item is not a pair,
      else its command followed by those of the items after it. */
  lemma PidCommandsFrom(items: seq<string>, k: nat)
    requires k < |items|
    ensures PidCommand(items[k]).None? ==> PidCommands(items[k..]) == []
    ensures PidCommand(items[k]).Some? ==>
      PidCommands(items[k..]) == [PidCommand(items[k]).value] + PidCommands(items[k + 1..])
  {
    assert items[k..][0] == items[k];
    assert items[k..][1..] == items[k + 1..];
  }

  /** Sending one more change after the frames of `cmds`. */
  lemma ChangeFramesSnoc(log: seq<string>, address: string, cmds: seq<(string, string)>, c: (string, string), bcc: string -> string)
    ensures log + ChangeFrames(address, cmds + [c], bcc) == (log + ChangeFrames(address, cmds, bcc)) + [ChangeFrame(address, c.0, c.1, bcc)]
  {
    assert (cmds + [c])[..|cmds|] == cmds;
  }

  /** One more item of the PID string: a pair extends the commands by its
      own; any other item ends them. */
  lemma PidNext(items: seq<string>, k: nat, done: seq<(string, string)>)
    requires k < |items| && AllPairs(items[..k]) && PidCommands(items) == done + PidCommands(items[k..])
    ensures PidCommand(items[k]).None? ==> PidCommands(items) == done && !AllPairs(items)
    ensures PidCommand(items[k]).Some? ==>
      && AllPairs(items[..k + 1])
      && PidCommands(items) == (done + [PidCommand(items[k]).value]) + PidCommands(items[k + 1..])
  {
    PidCommandsFrom(items, k);
    if PidCommand(items[k]).None? {
      assert done + [] == done;
    } else {
      AllPairsSnoc(items, k);
    }
  }

  lemma AllPairsSnoc(items: seq<string>, k: nat)
    requires k < |items| && AllPairs(items[..k]) && PidCommand(items[k]).Some?
    ensures AllPairs(items[..k + 1])
  {
    assert items[..k + 1] == items[..k] + [items[k]];
  }

  /** Every item was a pair. */
  lemma PidEnd(items: seq<string>, done: seq<(string, string)>)
    requires AllPairs(items[..|items|]) && PidCommands(items) == done + PidCommands(items[|items|..])
    ensures PidCommands(items) == done && AllPairs(items)
  {
    assert items[..|items|] == items;
    assert items[|items|..] == [];
    assert done + [] == done;
  }

  /** A PID string of pairs sends exactly one change per item, carrying the
      item's command and value. */
  lemma PidStringSendsEveryItem(s: string, bcc: string -> string, address: string)
    requires AllPairs(Split(s, ';'))
    ensures var items := Split(s, ';');
      var frames := ChangeFrames(address, PidCommands(items), bcc);
      && |frames| == |items|
      && forall k :: 0 <= k < |items| ==>
           var c := PidCommand(items[k]).value;
           frames[k] == ChangeFrame(address, c.0, c.1, bcc) && items[k] == c.0 + "," + c.1
  {
    PidCommandsAll(Split(s, ';'));
    PidCommandsPrefix(Split(s, ';'));
    ChangeFramesAt(address, PidCommands(Split(s, ';')), bcc);
  }

  /** The controller. The reply to each frame, the block check routine,
      Python's `float` and the PID pattern of the base driver are outside
      the driver and are given to it. */
  class Eurotherm818 {
    var gid: int
    var uid: int
    /** Every frame handed to `ask`, in order. */
    var sent: seq<string>
    const calculateBcc: string -> string
    const float: string -> Option<real>
    const pidPattern: string -> bool

    constructor (gid: int, uid: int, calculateBcc: string -> string, float: string -> Option<real>, pidPattern: string -> bool)
      ensures this.gid == gid && this.uid == uid && sent == []
      ensures this.calculateBcc == calculateBcc && this.float == float && this.pidPattern == pidPattern
    {
      this.gid := gid;
      this.uid := uid;
      this.calculateBcc := calculateBcc;
      this.float := float;
      this.pidPattern := pidPattern;
      sent := [];
    }

    /** `ask`: the frame is sent; its reply is a parameter of the caller. */
    method Ask(frame: string)
      modifies this`sent
      ensures sent == old(sent) + [frame]
    {
      sent := sent + [frame];
    }

    /** `enquiry(mnemonic)` with the instrument's reply `resp`. */
    method Enquiry(mnemonic: string, resp: Option<string>) returns (r: Result<Option<real>>)
      modifies this`sent
      ensures sent == old(sent) + [EnquiryFrame(UnitAddress(gid, uid), mnemonic)]
      ensures r == EnquiryValue(resp, float)
    {
      var address := UnitAddress(gid, uid);
      var transmission := [EOT] + address + mnemonic + [ENQ];
      Ask(transmission);
      if resp.None? || resp.value == [] {
        return Ok(None);
      }
      var reply := resp.value;
      if |reply| < 3 {
        return Err(IndexError);
      }
      var text := if |reply| >= 6 then reply[3..|reply| - 3] else [];
      var x := float(text);
      if x.None? {
        return Err(ValueError);
      }
      r := Ok(Some(x.value));
    }

    /** `change(mnemonic, value)`, the value as the text it is formatted to. */
    method Change(mnemonic: string, value: string)
      modifies this`sent
      ensures sent == old(sent) + [ChangeFrame(UnitAddress(gid, uid), mnemonic, value, calculateBcc)]
    {
      var address := UnitAddress(gid, uid);
      var packet := mnemonic + value + [ETX];
      var bcc := calculateBcc(packet);
      Ask([EOT] + address + [STX] + packet + bcc);
    }

    /** `read_setpoint`, which `test_connection` also returns. */
    method ReadSetpoint(resp: Option<string>) returns (r: Result<Option<real>>)
      modifies this`sent
      ensures sent == old(sent) + [EnquiryFrame(UnitAddress(gid, uid), Setpoint)]
      ensures r == EnquiryValue(resp, float)
    {
      r := Enquiry(Setpoint, resp);
    }

    /** `set_process_setpoint_hook(v)`. */
    method SetProcessSetpoint(v: string)
      modifies this`sent
      ensures sent == old(sent) + [ChangeFrame(UnitAddress(gid, uid), Setpoint, v, calculateBcc)]
    {
      Change(Setpoint, v);
    }

    /** `get_process_value_hook`. */
    method GetProcessValue(resp: Option<string>) returns (r: Result<Option<real>>)
      modifies this`sent
      ensures sent == old(sent) + [EnquiryFrame(UnitAddress(gid, uid), ProcessValue)]
      ensures r == EnquiryValue(resp, float)
    {
      r := Enquiry(ProcessValue, resp);
    }

    /** `get_output_hook`. */
    method GetOutput(resp: Option<string>) returns (r: Result<Option<real>>)
      modifies this`sent
      ensures sent == old(sent) + [EnquiryFrame(UnitAddress(gid, uid), Output)]
      ensures r == EnquiryValue(resp, float)
    {
      r := Enquiry(Output, resp);
    }

    /** `set_pid(s)`: a string that does not match the PID pattern sends
        nothing and gives None; otherwise each ';'-separated item is sent as
        a change in order, True is returned, and an item that is not a
        `cmd,value` pair raises ValueError after the items before it were
        sent. */
    method SetPid(s: string) returns (r: Result<Option<bool>>)
      modifies this`sent
      ensures !pidPattern(s) ==> r == Ok(None) && sent == old(sent)
      ensures pidPattern(s) ==>
        && sent == old(sent) + ChangeFrames(UnitAddress(gid, uid), PidCommands(Split(s, ';')), calculateBcc)
        && r == (if AllPairs(Split(s, ';')) then Ok(Some(true)) else Err(ValueError))
    {
      if !pidPattern(s) {
        return Ok(None);
      }
      var ok := SendPidItems(Split(s, ';'));
      r := if ok then Ok(Some(true)) else Err(ValueError);
    }

    /** The loop of `set_pid`: each item split at ',' and sent as a change,
        in order; an item that is not a pair stops the loop. */
    method SendPidItems(items: seq<string>) returns (ok: bool)
      modifies this`sent
      ensures sent == old(sent) + ChangeFrames(UnitAddress(gid, uid), PidCommands(items), calculateBcc)
      ensures ok == AllPairs(items)
    {
      ghost var address, bcc, before := UnitAddress(gid, uid), calculateBcc, sent;
      ghost var done: seq<(string, string)> := [];
      var k := 0;
      while k < |items|
        invariant 0 <= k <= |items|
        invariant address == UnitAddress(gid, uid)
        invariant AllPairs(items[..k])
        invariant PidCommands(items) == done + PidCommands(items[k..])
        invariant sent == before + ChangeFrames(address, done, bcc)
      {
        PidNext(items, k, done);
        var cmd := PidCommand(items[k]);
        if cmd.None? {
          return false;
        }
        ChangeFramesSnoc(before, address, done, cmd.value, bcc);
        Change(cmd.value.0, cmd.value.1);
        done := done + [cmd.value];
        k := k + 1;
      }
      PidEnd(items, done);
      ok := true;
    }
  }
}
