/**
 * The path of one rendered frame through the system: the audio monitor
 * renders 300 pixels, writes them as the Lua chunk `return {...}` and sends
 * it as one WebSocket message; the sandbox runs it and writes the frame to
 * the serial port.
 *
 * What init.lua's `run_sandboxed` does with a chunk is not part of this
 * model. `ReadsTableLiterals` states what the delivery below takes as
 * given: a printable chunk of the form `return {n1,n2,...}` evaluates to
 * true and the table `LuaTable.ParseLuaTable` reads from its text.
 */
module EndToEnd {
  import opened Common
  import LuaTable
  import LineRenderer
  import LuaSandbox
  import SerialFrames

  /** Text made of printable ASCII characters only. */
  predicate Printable(s: string)
  {
    forall i :: 0 <= i < |s| ==> ' ' <= s[i] <= '~'
  }

  lemma {:induction false} JoinCommasPrintable(parts: seq<string>)
    requires forall i :: 0 <= i < |parts| ==> Printable(parts[i])
    ensures Printable(LuaTable.JoinCommas(parts))
    decreases |parts|
  {
    if |parts| > 1 {
      JoinCommasPrintable(parts[1..]);
      assert LuaTable.JoinCommas(parts) == parts[0] + "," + LuaTable.JoinCommas(parts[1..]);
    }
  }

  /**
   * The Lua runtime evaluates every printable `return {...}` chunk of
   * decimal numbers to success and the table the independent reader
   * `LuaTable.ParseLuaTable` finds in it.
   */
  ghost predicate ReadsTableLiterals(lua: LuaSandbox.LuaRuntime)
  {
    forall code: string :: Printable(code) && LuaTable.ParseLuaTable(code).Some? ==>
      lua(Ascii(code), 0).ok && lua(Ascii(code), 0).entries == LuaTable.ParseLuaTable(code).value
  }

  /** A number of at most three digits is written in at most three characters. */
  lemma ShortDecimal(n: nat)
    requires n < 1000
    ensures |LuaTable.Decimal(n)| <= 3
  {
    if n >= 10 {
      assert |LuaTable.Decimal(n / 10)| <= 2;
    }
  }

  lemma {:induction false} JoinCommasLength(parts: seq<string>)
    requires forall i :: 0 <= i < |parts| ==> |parts[i]| <= 3
    ensures |LuaTable.JoinCommas(parts)| <= 4 * |parts|
    decreases |parts|
  {
    if |parts| > 1 {
      JoinCommasLength(parts[1..]);
    }
  }

  /** The chunk sent for a 300-pixel frame is printable ASCII and fits the sandbox's 1 MiB buffer. */
  lemma RenderedCodeFits(levels: LineRenderer.Levels)
    ensures var code := LuaTable.LuaCode(LineRenderer.Frame(levels, LuaSandbox.PixNum));
            Printable(code) && |code| <= LuaSandbox.LuaCodeLen
  {
    var frame := LineRenderer.Frame(levels, LuaSandbox.PixNum);
    LineRenderer.FrameBounded(levels, LuaSandbox.PixNum);
    var parts := LuaTable.Decimals(frame);
    forall i | 0 <= i < |parts|
      ensures Printable(parts[i]) && |parts[i]| <= 3
    {
      ShortDecimal(frame[i]);
    }
    JoinCommasPrintable(parts);
    JoinCommasLength(parts);
    var code := LuaTable.LuaCode(frame);
    assert code == LuaTable.Prefix + LuaTable.JoinCommas(parts) + "}";
  }

  /** The bytes of a printable text hold no NUL, so the C string the sandbox hands to Lua is the whole text. */
  lemma PrintableCString(code: string)
    requires Printable(code)
    ensures LuaSandbox.CString(Ascii(code)) == Ascii(code)
  {
    var b := Ascii(code);
    assert 0 !in b;
  }

  /**
   * A table holding a rendered frame is accepted by `runLuaSandboxed`, and
   * the bytes it copies out are the frame itself: every value is at most
   * 0xAA, so the truncation to `uint8_t` changes nothing.
   */
  lemma RenderedFrameAccepted(levels: LineRenderer.Levels, ret: LuaSandbox.LuaReturn)
    requires ret.ok && ret.entries == LineRenderer.Frame(levels, LuaSandbox.PixNum)
    ensures LuaSandbox.Accepts(ret)
    ensures LuaSandbox.AcceptedFrame(ret) == ret.entries
    ensures |SerialFrames.Unpack(LuaSandbox.AcceptedFrame(ret))| == SerialFrames.PicturePixels
  {
    LineRenderer.FrameBounded(levels, LuaSandbox.PixNum);
  }

  /**
   * One message through a fresh sandbox: one connection, and the message
   * as its single final fragment. A message Lua accepts is answered with
   * "Accepted" and its frame is the one serial write.
   */
  method DeliverMessage(message: seq<Byte>, lua: LuaSandbox.LuaRuntime)
    returns (rc: int, written: seq<seq<Byte>>, replies: seq<seq<Byte>>)
    requires |message| <= LuaSandbox.LuaCodeLen && LuaSandbox.Accepts(lua(LuaSandbox.CString(message), 0))
    ensures rc == 0
    ensures written == [LuaSandbox.AcceptedFrame(lua(LuaSandbox.CString(message), 0))]
    ensures replies == [LuaSandbox.AcceptedReply]
  {
    var sandbox := new LuaSandbox.Sandbox();
    sandbox.Established(1);
    assert sandbox.clients[1].Received() + message == message;
    rc := sandbox.Receive(1, message, true, lua);
    written := sandbox.serialWrites;
    replies := sandbox.clients[1].Pending();
  }

  /** One rendered frame end to end: it is accepted and written to the serial port unchanged. */
  method DeliverRenderedFrame(levels: LineRenderer.Levels, lua: LuaSandbox.LuaRuntime)
    returns (rc: int, written: seq<seq<Byte>>, replies: seq<seq<Byte>>)
    requires ReadsTableLiterals(lua)
    ensures rc == 0
    ensures written == [LineRenderer.Frame(levels, LuaSandbox.PixNum)]
    ensures replies == [LuaSandbox.AcceptedReply]
  {
    var frame := LineRenderer.Frame(levels, LuaSandbox.PixNum);
    var code := LuaTable.LuaCode(frame);
    LuaTable.ParseLuaCode(frame);
    RenderedCodeFits(levels);
    var message := Ascii(code);
    PrintableCString(code);
    RenderedFrameAccepted(levels, lua(message, 0));
    rc, written, replies := DeliverMessage(message, lua);
  }
}
