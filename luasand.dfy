/**
 * The Lua sandbox server (luasand/main.cpp): it reassembles fragmented
 * WebSocket messages into a fixed 1 MiB buffer per client, runs each
 * complete message as Lua, writes an accepted 900-byte frame to the serial
 * port, queues short text replies for each client, and re-runs the last
 * accepted code periodically with a frame counter.
 *
 * The Lua interpreter is a parameter: `run_sandboxed(code, counter)` as a
 * function from the code string and the counter to the three values it
 * returns. libwebsockets calls and the serial `write` are not modelled as
 * calls; what `write` is given is recorded in `serialWrites`, what
 * `lws_write` is given is returned by the writable callback. Mutexes and
 * sleeps are left out: each method is one uninterrupted step.
 */
module LuaSandbox {
  import opened Common

  /** LUA_CODE_LEN, PIX_NUM, LED_NUM (luasand/main.cpp:26-29) */
  const LuaCodeLen: nat := 1024 * 1024
  const PixNum: nat := 300
  const LedNum: nat := 300 * 3

  /** The 20 entries of `ClientData::output` (luasand/main.cpp:45-48). */
  const OutputSlots: nat := 20

  /** `sizeof(output)` on an LP64 target: 20 entries of a pointer and a `size_t`. */
  const SizeofOutput: nat := OutputSlots * (8 + 8)

  /** The client count past which new connections are refused (luasand/main.cpp:143). */
  const MaxClients: nat := 8

  /** The frame counter wraps to 0 on reaching 0x10000 (luasand/main.cpp:272). */
  const CounterWrap: nat := 0x10000

  /** The initial `delay` of the periodic thread, in milliseconds (luasand/main.cpp:261). */
  const InitialDelay: int := 1000

  /** The bytes of the "Accepted" reply (luasand/main.cpp:131). */
  const AcceptedReply: seq<Byte> := [65, 99, 99, 101, 112, 116, 101, 100]

  /** The identity of a connection, the `lws *` key of `g_clientsData`. */
  type Handle = nat

  // ---------------------------------------------------------------------
  // The Lua call and its result
  // ---------------------------------------------------------------------

  /**
   * What `run_sandboxed` leaves on the stack: its first result as a boolean,
   * the integer value of each entry `1 .. lua_rawlen` of its second result,
   * the bytes `lua_tostring` gives for that second result (the error text
   * when the first is false, NUL bytes included; a result that is neither
   * a string nor a number, for which `lua_tostring` gives NULL, is not
   * modelled), and its third result as an integer.
   */
  datatype LuaReturn = LuaReturn(ok: bool, entries: seq<int>, message: seq<Byte>, delay: int)

  /** `run_sandboxed(code, periodCounter)` of the Lua state loaded from init.lua. */
  type LuaRuntime = (seq<Byte>, int) -> LuaReturn

  /** `(uint8_t) x`: reduction modulo 256. */
  function ToUint8(x: int): (b: Byte)
    ensures 0 <= x < 256 ==> b == x
    ensures (b - x) % 256 == 0
  {
    x % 256
  }

  /** `(int) x` of a 64-bit Lua integer on a two's complement target: reduction into [-2^31, 2^31). */
  function ToInt32(x: int): (r: int)
    ensures -0x8000_0000 <= r < 0x8000_0000
    ensures -0x8000_0000 <= x < 0x8000_0000 ==> r == x
  {
    (x + 0x8000_0000) % 0x1_0000_0000 - 0x8000_0000
  }

  /** `runLuaSandboxed` reports success: Lua returned true and a table of exactly LED_NUM entries. */
  predicate Accepts(ret: LuaReturn)
  {
    ret.ok && |ret.entries| == LedNum
  }

  /** The frame `runLuaSandboxed` copies out of an accepted table. */
  function AcceptedFrame(ret: LuaReturn): (frame: seq<Byte>)
    requires Accepts(ret)
    ensures |frame| == LedNum
  {
    seq(LedNum, i requires 0 <= i < LedNum => ToUint8(ret.entries[i]))
  }

  /** The bytes of a C string: everything before the first NUL. */
  function CString(s: seq<Byte>): (c: seq<Byte>)
    ensures |c| <= |s| && c == s[..|c|] && 0 !in c
    ensures |c| < |s| ==> s[|c|] == 0
  {
    if s == [] || s[0] == 0 then [] else [s[0]] + CString(s[1..])
  }

  /**
   * `runLuaSandboxed` (luasand/main.cpp:84-112): call `run_sandboxed`; on
   * success with a table of exactly LED_NUM entries, copy each entry
   * truncated to a byte and take the third result as the new delay; with a
   * table of any other length report failure; when Lua reports failure,
   * hand back the C string `lua_tostring` gives for its message (the bytes
   * before the first NUL) for the caller to print. `delay` is written only
   * on success.
   */
  method RunLuaSandboxed(code: seq<Byte>, periodCounter: int, lua: LuaRuntime, delayIn: int)
    returns (success: bool, result: seq<Byte>, delay: int, error: Option<seq<Byte>>)
    ensures success <==> Accepts(lua(code, periodCounter))
    ensures success ==> result == AcceptedFrame(lua(code, periodCounter))
    ensures success ==>
              |result| == LedNum &&
              forall i :: 0 <= i < LedNum ==> result[i] == lua(code, periodCounter).entries[i] % 256
    ensures delay == if success then ToInt32(lua(code, periodCounter).delay) else delayIn
    ensures error == if lua(code, periodCounter).ok then None else Some(CString(lua(code, periodCounter).message))
  {
    var ret := lua(code, periodCounter);
    success := ret.ok;
    result, delay, error := [], delayIn, None;
    if success {
      var len := |ret.entries|;
      if len == LedNum {
        var frame := new Byte[LedNum];
        var i := 1;
        while i <= len
          invariant 1 <= i <= len + 1
          invariant forall j :: 0 <= j < i - 1 ==> frame[j] == ToUint8(ret.entries[j])
        {
          frame[i - 1] := ToUint8(ret.entries[i - 1]);
          i := i + 1;
        }
        result := frame[..];
        delay := ToInt32(ret.delay);
      } else {
        success := false;
      }
    } else {
      error := Some(CString(ret.message));
    }
  }

  // ---------------------------------------------------------------------
  // The reply queue guard
  // ---------------------------------------------------------------------

  /**
   * The slot `ClientData::print` writes as the code stands
   * (luasand/main.cpp:53-56): it drops the message only once `outputPos`
   * reaches `sizeof(output)`, the byte size of the array.
   */
  function PrintSlotAsWritten(outputPos: nat): (slot: Option<nat>)
    ensures slot.Some? <==> outputPos < SizeofOutput
    ensures slot.Some? ==> slot.value == outputPos
  {
    if outputPos >= SizeofOutput then None else Some(outputPos)
  }

  /** With 20 replies already queued, the guard as written lets the 21st through to slot 20 of a 20-slot array. */
  lemma PrintGuardAsWrittenOverflows()
    ensures PrintSlotAsWritten(OutputSlots) == Some(OutputSlots)
    ensures exists pos: nat :: PrintSlotAsWritten(pos).Some? && PrintSlotAsWritten(pos).value >= OutputSlots
  {
    assert PrintSlotAsWritten(OutputSlots).value >= OutputSlots;
  }

  /** The slot `print` writes with the guard on the number of entries, which the rest of the model uses. */
  function PrintSlot(outputPos: nat): (slot: Option<nat>)
    ensures slot.Some? <==> outputPos < OutputSlots
    ensures slot.Some? ==> slot.value == outputPos
  {
    if outputPos >= OutputSlots then None else Some(outputPos)
  }

  /**
   * The pending replies after `print(msg)`: the queued ones stay in place,
   * and the queue grows, by `msg` at the end, exactly when a slot is free.
   * It never grows past its 20 slots.
   */
  function Enqueue(pending: seq<seq<Byte>>, msg: seq<Byte>): (r: seq<seq<Byte>>)
    ensures |r| >= |pending| && r[..|pending|] == pending
    ensures |r| > |pending| <==> |pending| < OutputSlots
    ensures |r| > |pending| ==> r == pending + [msg]
    ensures |pending| <= OutputSlots ==> |r| <= OutputSlots
  {
    if |pending| >= OutputSlots then pending else pending + [msg]
  }

  /**
   * The pending replies after printing each of `msgs` in order: the queued
   * ones stay in place, the queue never holds more than its 20 slots, and
   * when everything fits every message is queued in order.
   */
  function EnqueueAll(pending: seq<seq<Byte>>, msgs: seq<seq<Byte>>): (r: seq<seq<Byte>>)
    ensures |r| >= |pending| && r[..|pending|] == pending
    ensures |pending| <= OutputSlots ==> |r| <= OutputSlots
    ensures |pending| + |msgs| <= OutputSlots ==> r == pending + msgs
    decreases |msgs|
  {
    if msgs == [] then pending
    else
      var next := Enqueue(pending, msgs[0]);
      assert |pending| + |msgs| <= OutputSlots ==> next + msgs[1..] == pending + msgs;
      EnqueueAll(next, msgs[1..])
  }

  /**
   * The replies a complete message produces (luasand/main.cpp:89-109,
   * 127-131): Lua's error text as the C string `print` reads, or
   * "Accepted", or nothing at all when Lua returned true with a table that
   * is not LED_NUM entries long.
   */
  function Replies(ret: LuaReturn): (r: seq<seq<Byte>>)
    ensures |r| <= 1
    ensures r == [] <==> ret.ok && !Accepts(ret)
    ensures !ret.ok ==>
              |r[0]| <= |ret.message| && r[0] == ret.message[..|r[0]|] && 0 !in r[0] &&
              (|r[0]| < |ret.message| ==> ret.message[|r[0]|] == 0)
    ensures Accepts(ret) ==> r == [AcceptedReply]
  {
    if !ret.ok then [CString(ret.message)] else if Accepts(ret) then [AcceptedReply] else []
  }

  // ---------------------------------------------------------------------
  // One client
  // ---------------------------------------------------------------------

  /** `ClientData` (luasand/main.cpp:31-67). */
  class ClientData {
    /** `wsi`; `None` is `nullptr`, the mark of a connection being closed. */
    var wsi: Option<Handle>
    const luaCodeBuffer: array<Byte>
    var luaCodeBufferSize: nat
    const output: array<seq<Byte>>
    var outputPos: nat

    ghost predicate Valid()
      reads this
    {
      luaCodeBuffer.Length == LuaCodeLen + 1 && output.Length == OutputSlots &&
      luaCodeBufferSize <= LuaCodeLen && outputPos <= OutputSlots
    }

    /** The replies waiting to be written, oldest first. */
    function Pending(): seq<seq<Byte>>
      reads this, output
      requires Valid()
    {
      output[..outputPos]
    }

    /** The fragments of the current message received so far. */
    function Received(): seq<Byte>
      reads this, luaCodeBuffer
      requires Valid()
    {
      luaCodeBuffer[..luaCodeBufferSize]
    }

    /** `ClientData()` (luasand/main.cpp:32-38) */
    constructor ()
      ensures Valid() && fresh(luaCodeBuffer) && fresh(output)
      ensures wsi == None && luaCodeBufferSize == 0 && outputPos == 0
    {
      wsi := None;
      luaCodeBuffer := new Byte[LuaCodeLen + 1];
      luaCodeBufferSize := 0;
      output := new seq<Byte>[OutputSlots];
      outputPos := 0;
    }

    /** The append of `wsDataReceived` (luasand/main.cpp:119-121): the fragment is copied after the bytes received so far. */
    method Append(chunk: seq<Byte>)
      requires Valid() && luaCodeBufferSize + |chunk| <= LuaCodeLen
      modifies this, luaCodeBuffer
      ensures Valid() && wsi == old(wsi) && outputPos == old(outputPos)
      ensures Received() == old(Received()) + chunk
      ensures forall k :: luaCodeBufferSize <= k < luaCodeBuffer.Length ==> luaCodeBuffer[k] == old(luaCodeBuffer[k])
    {
      var luaCodeOrigSize := luaCodeBufferSize;
      luaCodeBufferSize := luaCodeBufferSize + |chunk|;
      forall k | 0 <= k < |chunk| {
        luaCodeBuffer[luaCodeOrigSize + k] := chunk[k];
      }
      assert luaCodeBuffer[..luaCodeBufferSize] == old(Received()) + chunk;
    }

    /** The NUL written after a complete message (luasand/main.cpp:123). */
    method Terminate()
      requires Valid()
      modifies luaCodeBuffer
      ensures Received() == old(Received()) && luaCodeBuffer[luaCodeBufferSize] == 0
      ensures luaCodeBuffer[luaCodeBufferSize + 1..] == old(luaCodeBuffer[luaCodeBufferSize + 1..])
    {
      luaCodeBuffer[luaCodeBufferSize] := 0;
      assert luaCodeBuffer[..luaCodeBufferSize] == old(luaCodeBuffer[..luaCodeBufferSize]);
    }

    /**
     * `print` (luasand/main.cpp:52-66): queue the C string `str` unless
     * every slot is taken. `str` is the string's content, the `strlen(str)`
     * bytes before its terminator, so it holds no NUL. The guard is on the
     * number of slots; see `PrintSlotAsWritten` for the guard the code has.
     */
    method Print(str: seq<Byte>)
      requires Valid() && 0 !in str
      modifies this, output
      ensures Valid() && Pending() == Enqueue(old(Pending()), str)
      ensures wsi == old(wsi) && luaCodeBufferSize == old(luaCodeBufferSize)
    {
      var slot := PrintSlot(outputPos);
      if slot.None? {
        return;
      }
      output[slot.value] := str;
      outputPos := outputPos + 1;
    }

    /**
     * The reply half of the writable callback (luasand/main.cpp:184-195):
     * nothing when no reply is queued; otherwise take the most recently
     * queued one, and ask for another callback iff replies remain.
     */
    method TakeReply() returns (sent: Option<seq<Byte>>, more: bool)
      requires Valid()
      modifies this
      ensures Valid() && wsi == old(wsi) && luaCodeBufferSize == old(luaCodeBufferSize)
      ensures old(outputPos) == 0 ==> sent == None && !more && outputPos == 0
      ensures old(outputPos) > 0 ==>
                sent == Some(old(Pending())[old(outputPos) - 1]) &&
                Pending() == old(Pending())[..old(outputPos) - 1] &&
                more == (|Pending()| > 0)
    {
      if outputPos <= 0 {
        return None, false;
      }
      outputPos := outputPos - 1;
      sent := Some(output[outputPos]);
      more := MoreAsWritten(outputPos);
    }
  }

  /** `(bool)clientData.outputPos > 0`: the cast binds first and the bool is compared as 0 or 1. */
  function MoreAsWritten(outputPos: nat): (more: bool)
    ensures more <==> outputPos > 0
  {
    (if outputPos != 0 then 1 else 0) > 0
  }

  // ---------------------------------------------------------------------
  // The server
  // ---------------------------------------------------------------------

  /** The next value of the periodic frame counter after a successful run. */
  function NextCounter(counter: int): (next: int)
    requires 0 <= counter < CounterWrap
    ensures 0 <= next < CounterWrap
    ensures 0 <= counter < CounterWrap - 1 ==> next == counter + 1
  {
    if counter + 1 >= CounterWrap then 0 else counter + 1
  }

  /** The counter after `runs` successful runs since a reset to 1: it counts them, modulo 0x10000. */
  function CounterAfter(runs: nat): (counter: int)
    ensures counter == (1 + runs) % CounterWrap
  {
    if runs == 0 then 1 else NextCounter(CounterAfter(runs - 1))
  }

  /** C `a / b`: the quotient truncated toward zero. */
  function CQuot(a: int, b: int): int
    requires b > 0
  {
    if a >= 0 then a / b else -((-a) / b)
  }

  /** C `a % b`: the remainder of the truncated quotient, with the sign of `a`. */
  function CRem(a: int, b: int): int
    requires b > 0
  {
    a - b * CQuot(a, b)
  }

  /**
   * How long the periodic thread sleeps after a step when no reset arrives
   * (luasand/main.cpp:278-284): `delay % 50` milliseconds, then `delay / 50`
   * naps of 50 milliseconds; a negative duration sleeps not at all.
   */
  function SleepMillis(delay: int): (ms: nat)
    ensures ms == if delay >= 0 then delay else 0
  {
    var first := CRem(delay, 50);
    var naps := CQuot(delay, 50);
    assert delay < 0 ==> naps <= 0 && first <= 0 by {
      if delay < 0 {
        var q := (-delay) / 50;
        assert naps == -q <= 0;
        assert first == delay + 50 * q;
        assert -delay - 50 * q >= 0;
      }
    }
    (if first > 0 then first else 0) + 50 * (if naps > 0 then naps else 0)
  }

  /** The process state: the client table, the last accepted code, the serial output and the periodic thread. */
  class Sandbox {
    /** `g_clientsData` */
    var clients: map<Handle, ClientData>
    /** `gLuaCode` */
    const luaCode: array<Byte>
    /** `gPeriodicReset` */
    var periodicReset: int
    /** Every frame given to `write(gSerialPort, result, LED_NUM)`, in order. */
    var serialWrites: seq<seq<Byte>>
    /** The `delay` and `counter` locals of `luaPeriodicThread`. */
    var delay: int
    var counter: int

    ghost predicate Valid()
      reads this, clients.Values
    {
      luaCode.Length == LuaCodeLen + 1 &&
      0 <= counter < CounterWrap &&
      (forall h :: h in clients ==>
         clients[h].Valid() && clients[h].luaCodeBuffer != luaCode &&
         (clients[h].wsi == Some(h) || clients[h].wsi == None)) &&
      (forall h1, h2 :: h1 in clients && h2 in clients && h1 != h2 ==>
         clients[h1] != clients[h2] &&
         clients[h1].luaCodeBuffer != clients[h2].luaCodeBuffer &&
         clients[h1].output != clients[h2].output)
    }

    /** The objects the callbacks for `wsi` may change. */
    ghost function ClientFootprint(wsi: Handle): set<object>
      reads this
    {
      if wsi in clients then {clients[wsi], clients[wsi].luaCodeBuffer, clients[wsi].output} else {}
    }

    /** The globals as the process starts (luasand/main.cpp:69-73, 260-262). */
    constructor ()
      ensures Valid() && fresh(luaCode)
      ensures clients == map[] && serialWrites == [] && periodicReset == 0
      ensures delay == InitialDelay && counter == 1
      ensures forall i :: 0 <= i < luaCode.Length ==> luaCode[i] == 0
    {
      clients := map[];
      luaCode := new Byte[LuaCodeLen + 1](_ => 0);
      periodicReset := 0;
      serialWrites := [];
      delay, counter := InitialDelay, 1;
    }

    /**
     * `wsDataReceived` (luasand/main.cpp:114-137). A fragment that would
     * overflow the buffer is refused with 1 and changes nothing. Otherwise
     * it is appended; on the final fragment the message is NUL-terminated
     * and run; on success the frame goes to the serial port, the code
     * replaces `gLuaCode`, the periodic thread is told to reset to the
     * returned delay and "Accepted" is queued; Lua's error text is queued
     * on failure; and the buffer is emptied either way.
     */
    method DataReceived(client: ClientData, chunk: seq<Byte>, terminated: bool, lua: LuaRuntime) returns (rc: int)
      requires client.Valid() && luaCode.Length == LuaCodeLen + 1 && client.luaCodeBuffer != luaCode
      modifies this, luaCode, client, client.luaCodeBuffer, client.output
      ensures client.Valid() && client.wsi == old(client.wsi)
      ensures clients == old(clients) && delay == old(delay) && counter == old(counter)
      ensures rc == if old(client.luaCodeBufferSize) + |chunk| > LuaCodeLen then 1 else 0
      ensures rc == 1 ==>
                client.luaCodeBufferSize == old(client.luaCodeBufferSize) &&
                client.luaCodeBuffer[..] == old(client.luaCodeBuffer[..]) &&
                client.Pending() == old(client.Pending()) &&
                serialWrites == old(serialWrites) && periodicReset == old(periodicReset) &&
                luaCode[..] == old(luaCode[..])
      ensures rc == 0 ==>
                var end := old(client.luaCodeBufferSize) + |chunk|;
                client.luaCodeBuffer[..end] == old(client.Received()) + chunk &&
                client.luaCodeBuffer[end + 1..] == old(client.luaCodeBuffer[end + 1..])
      ensures rc == 0 && !terminated ==>
                client.luaCodeBufferSize == old(client.luaCodeBufferSize) + |chunk| &&
                client.Pending() == old(client.Pending()) &&
                serialWrites == old(serialWrites) && periodicReset == old(periodicReset) &&
                luaCode[..] == old(luaCode[..])
      ensures rc == 0 && terminated ==>
                var message := old(client.Received()) + chunk;
                var ret := lua(CString(message), 0);
                client.luaCodeBufferSize == 0 &&
                client.luaCodeBuffer[|message|] == 0 &&
                client.Pending() == EnqueueAll(old(client.Pending()), Replies(ret)) &&
                serialWrites == old(serialWrites) + (if Accepts(ret) then [AcceptedFrame(ret)] else []) &&
                periodicReset == (if Accepts(ret) then ToInt32(ret.delay) else old(periodicReset)) &&
                (Accepts(ret) ==> luaCode[..|message| + 1] == message + [0] &&
                                  luaCode[|message| + 1..] == old(luaCode[|message| + 1..])) &&
                (!Accepts(ret) ==> luaCode[..] == old(luaCode[..]))
    {
      if client.luaCodeBufferSize + |chunk| > LuaCodeLen {
        return 1;
      }
      client.Append(chunk);
      rc := 0;
      if terminated {
        client.Terminate();
        RunMessage(client, lua);
        client.luaCodeBufferSize := 0;
      }
    }

    /**
     * The complete-message half of `wsDataReceived`
     * (luasand/main.cpp:124-133): run the NUL-terminated message; on success
     * write the frame, copy the message and its terminator into `gLuaCode`,
     * request a periodic reset to the returned delay and queue "Accepted";
     * on failure queue Lua's error text.
     */
    method RunMessage(client: ClientData, lua: LuaRuntime)
      requires client.Valid() && luaCode.Length == LuaCodeLen + 1 && client.luaCodeBuffer != luaCode
      requires client.luaCodeBuffer[client.luaCodeBufferSize] == 0
      modifies this, luaCode, client, client.output
      ensures client.Valid() && client.wsi == old(client.wsi)
      ensures client.luaCodeBufferSize == old(client.luaCodeBufferSize)
      ensures clients == old(clients) && delay == old(delay) && counter == old(counter)
      ensures var message := old(client.Received());
              var ret := lua(CString(message), 0);
              client.Pending() == EnqueueAll(old(client.Pending()), Replies(ret)) &&
              serialWrites == old(serialWrites) + (if Accepts(ret) then [AcceptedFrame(ret)] else []) &&
              periodicReset == (if Accepts(ret) then ToInt32(ret.delay) else old(periodicReset)) &&
              (Accepts(ret) ==> luaCode[..|message| + 1] == message + [0] &&
                                luaCode[|message| + 1..] == old(luaCode[|message| + 1..])) &&
              (!Accepts(ret) ==> luaCode[..] == old(luaCode[..]))
    {
      var size := client.luaCodeBufferSize;
      ghost var message := client.luaCodeBuffer[..size];
      assert client.luaCodeBuffer[..size + 1] == message + [0];
      CStringOfTerminated(message);
      var code := CString(client.luaCodeBuffer[..size + 1]);
      assert code == CString(message);
      var success, result, newDelay, error := RunLuaSandboxed(code, 0, lua, 0);
      ghost var ret := lua(code, 0);
      EnqueueAllOne(client.Pending(), Replies(ret));
      // Lua's error text is printed only when it returned false, so at most one branch runs.
      if error.Some? {
        client.Print(error.value);
      } else if success {
        Accept(client, result, newDelay);
      }
    }

    /**
     * What an accepted message does (luasand/main.cpp:128-131): its frame
     * is written to the serial port, the client's code and its NUL replace
     * the start of `gLuaCode`, the periodic thread is told to reset to the
     * new delay, and "Accepted" is printed to the client.
     */
    method Accept(client: ClientData, frame: seq<Byte>, newDelay: int)
      requires client.Valid() && luaCode.Length == LuaCodeLen + 1 && client.luaCodeBuffer != luaCode
      modifies this, luaCode, client, client.output
      ensures client.Valid() && client.wsi == old(client.wsi)
      ensures client.luaCodeBufferSize == old(client.luaCodeBufferSize)
      ensures serialWrites == old(serialWrites) + [frame] && periodicReset == newDelay
      ensures var n := client.luaCodeBufferSize + 1;
              luaCode[..n] == client.luaCodeBuffer[..n] && luaCode[n..] == old(luaCode[n..])
      ensures clients == old(clients) && delay == old(delay) && counter == old(counter)
      ensures client.Pending() == Enqueue(old(client.Pending()), AcceptedReply)
    {
      serialWrites := serialWrites + [frame];
      CopyBytes(luaCode, client.luaCodeBuffer, client.luaCodeBufferSize + 1);
      periodicReset := newDelay;
      client.Print(AcceptedReply);
    }

    /** `LWS_CALLBACK_FILTER_NETWORK_CONNECTION` (luasand/main.cpp:142-148): refuse once more than 8 clients are recorded. */
    method FilterNetworkConnection() returns (rc: int)
      ensures rc == if |clients| > MaxClients then -1 else 0
    {
      rc := if |clients| > MaxClients then -1 else 0;
    }

    /**
     * `LWS_CALLBACK_ESTABLISHED` (luasand/main.cpp:150-155): the entry for
     * `wsi`, default-constructed when absent, records its connection.
     */
    method Established(wsi: Handle)
      requires Valid()
      modifies this, if wsi in clients then {clients[wsi]} else {}
      ensures Valid() && wsi in clients && clients[wsi].wsi == Some(wsi)
      ensures clients == old(clients)[wsi := clients[wsi]]
      ensures wsi in old(clients) ==>
                clients[wsi] == old(clients[wsi]) &&
                clients[wsi].luaCodeBufferSize == old(clients[wsi].luaCodeBufferSize) &&
                clients[wsi].outputPos == old(clients[wsi].outputPos) &&
                clients[wsi].Received() == old(clients[wsi].Received()) &&
                clients[wsi].Pending() == old(clients[wsi].Pending())
      ensures wsi !in old(clients) ==>
                fresh(clients[wsi]) && fresh(clients[wsi].luaCodeBuffer) && fresh(clients[wsi].output) &&
                clients[wsi].luaCodeBufferSize == 0 && clients[wsi].Pending() == []
      ensures serialWrites == old(serialWrites) && periodicReset == old(periodicReset)
      ensures delay == old(delay) && counter == old(counter)
    {
      if wsi !in clients {
        var c := new ClientData();
        clients := clients[wsi := c];
      }
      clients[wsi].wsi := Some(wsi);
    }

    /** `LWS_CALLBACK_CLOSED` (luasand/main.cpp:157-160): the entry is erased. */
    method Closed(wsi: Handle)
      requires Valid()
      modifies this
      ensures Valid() && clients == old(clients) - {wsi}
      ensures serialWrites == old(serialWrites) && periodicReset == old(periodicReset)
      ensures delay == old(delay) && counter == old(counter)
    {
      clients := clients - {wsi};
    }

    /**
     * `LWS_CALLBACK_RECEIVE` (luasand/main.cpp:162-173): ignored for an
     * unknown or closing client; an overflowing fragment marks the client
     * closing and returns -1; otherwise the fragment is passed on.
     */
    method Receive(wsi: Handle, chunk: seq<Byte>, final: bool, lua: LuaRuntime) returns (rc: int)
      requires Valid()
      modifies this, luaCode, ClientFootprint(wsi)
      ensures Valid() && clients == old(clients)
      ensures delay == old(delay) && counter == old(counter)
      ensures wsi !in clients || old(clients[wsi].wsi) == None ==>
                rc == 0 && serialWrites == old(serialWrites) && periodicReset == old(periodicReset) &&
                luaCode[..] == old(luaCode[..]) &&
                (wsi in clients ==> clients[wsi].luaCodeBufferSize == old(clients[wsi].luaCodeBufferSize) &&
                                    clients[wsi].luaCodeBuffer[..] == old(clients[wsi].luaCodeBuffer[..]) &&
                                    clients[wsi].Pending() == old(clients[wsi].Pending()))
      ensures wsi in clients && old(clients[wsi].wsi) != None ==>
                var overflow := old(clients[wsi].luaCodeBufferSize) + |chunk| > LuaCodeLen;
                rc == (if overflow then -1 else 0) &&
                clients[wsi].wsi == (if overflow then None else old(clients[wsi].wsi)) &&
                (overflow ==> clients[wsi].luaCodeBufferSize == old(clients[wsi].luaCodeBufferSize) &&
                              clients[wsi].luaCodeBuffer[..] == old(clients[wsi].luaCodeBuffer[..]) &&
                              clients[wsi].Pending() == old(clients[wsi].Pending()) &&
                              serialWrites == old(serialWrites) && periodicReset == old(periodicReset) &&
                              luaCode[..] == old(luaCode[..]))
      ensures wsi in clients && old(clients[wsi].wsi) != None &&
              old(clients[wsi].luaCodeBufferSize) + |chunk| <= LuaCodeLen ==>
                var message := old(clients[wsi].Received()) + chunk;
                (!final ==> clients[wsi].Received() == message &&
                            clients[wsi].Pending() == old(clients[wsi].Pending()) &&
                            serialWrites == old(serialWrites) && periodicReset == old(periodicReset) &&
                            luaCode[..] == old(luaCode[..])) &&
                (final ==> var ret := lua(CString(message), 0);
                           clients[wsi].luaCodeBufferSize == 0 &&
                           clients[wsi].Pending() == EnqueueAll(old(clients[wsi].Pending()), Replies(ret)) &&
                           serialWrites == old(serialWrites) + (if Accepts(ret) then [AcceptedFrame(ret)] else []) &&
                           periodicReset == (if Accepts(ret) then ToInt32(ret.delay) else old(periodicReset)) &&
                           (Accepts(ret) ==> luaCode[..|message| + 1] == message + [0] &&
                                             luaCode[|message| + 1..] == old(luaCode[|message| + 1..])) &&
                           (!Accepts(ret) ==> luaCode[..] == old(luaCode[..])))
      ensures forall h :: h in clients && h != wsi ==>
                clients[h].wsi == old(clients[h].wsi) &&
                clients[h].Received() == old(clients[h].Received()) &&
                clients[h].Pending() == old(clients[h].Pending())
    {
      if wsi !in clients || clients[wsi].wsi == None {
        return 0;
      }
      var client := clients[wsi];
      var r := DataReceived(client, chunk, final, lua);
      rc := 0;
      if r != 0 {
        client.wsi := None;
        rc := -1;
      }
      forall h | h in clients && h != wsi
        ensures clients[h].wsi == old(clients[h].wsi)
        ensures clients[h].Received() == old(clients[h].Received())
        ensures clients[h].Pending() == old(clients[h].Pending())
      {
        assert clients[h] != client && clients[h].luaCodeBuffer != client.luaCodeBuffer;
        assert clients[h].output != client.output && clients[h].luaCodeBuffer != luaCode;
      }
    }

    /**
     * `LWS_CALLBACK_SERVER_WRITEABLE` (luasand/main.cpp:175-197): nothing
     * for an unknown client, -1 for a closing one, otherwise the most
     * recently queued reply is sent, if any, and another callback is
     * requested iff replies remain.
     */
    method Writeable(wsi: Handle) returns (rc: int, sent: Option<seq<Byte>>, rearm: bool)
      requires Valid()
      modifies if wsi in clients then {clients[wsi]} else {}
      ensures Valid() && clients == old(clients)
      ensures wsi in clients ==>
                clients[wsi].wsi == old(clients[wsi].wsi) &&
                clients[wsi].luaCodeBufferSize == old(clients[wsi].luaCodeBufferSize) &&
                clients[wsi].Received() == old(clients[wsi].Received())
      ensures forall h :: h in clients && h != wsi ==>
                clients[h].wsi == old(clients[h].wsi) &&
                clients[h].Received() == old(clients[h].Received()) &&
                clients[h].Pending() == old(clients[h].Pending())
      ensures wsi !in clients ==> rc == 0 && sent == None && !rearm
      ensures wsi in clients && clients[wsi].wsi == None ==>
                rc == -1 && sent == None && !rearm && clients[wsi].Pending() == old(clients[wsi].Pending())
      ensures wsi in clients && clients[wsi].wsi != None ==>
                var before := old(clients[wsi].Pending());
                rc == 0 &&
                (before == [] ==> sent == None && !rearm && clients[wsi].Pending() == []) &&
                (before != [] ==> sent == Some(before[|before| - 1]) &&
                                  clients[wsi].Pending() == before[..|before| - 1] &&
                                  rearm == (|before| > 1))
    {
      if wsi !in clients {
        return 0, None, false;
      }
      var client := clients[wsi];
      if client.wsi == None {
        return -1, None, false;
      }
      sent, rearm := client.TakeReply();
      rc := 0;
    }

    /**
     * One turn of `luaPeriodicThread` (luasand/main.cpp:263-284): a pending
     * reset takes the new delay, restarts the counter at 1 and clears the
     * flag; otherwise, when code is loaded, it is run with the counter and,
     * on success, the frame is written and the counter advanced, wrapping to
     * 0 at 0x10000. `sleep` is how long the thread then sleeps when no reset
     * arrives meanwhile.
     */
    method PeriodicStep(lua: LuaRuntime) returns (sleep: nat)
      requires Valid()
      modifies this
      ensures Valid() && clients == old(clients)
      ensures old(periodicReset) != 0 ==>
                delay == old(periodicReset) && counter == 1 && periodicReset == 0 &&
                serialWrites == old(serialWrites)
      ensures old(periodicReset) == 0 && luaCode[0] == 0 ==>
                delay == old(delay) && counter == old(counter) && periodicReset == 0 &&
                serialWrites == old(serialWrites)
      ensures old(periodicReset) == 0 && luaCode[0] != 0 ==>
                var ret := lua(CString(luaCode[..]), old(counter));
                periodicReset == 0 &&
                serialWrites == old(serialWrites) + (if Accepts(ret) then [AcceptedFrame(ret)] else []) &&
                delay == (if Accepts(ret) then ToInt32(ret.delay) else old(delay)) &&
                counter == (if Accepts(ret) then NextCounter(old(counter)) else old(counter))
      ensures sleep == SleepMillis(delay)
    {
      if periodicReset != 0 {
        delay := periodicReset;
        counter := 1;
        periodicReset := 0;
      } else {
        if luaCode[0] != 0 {
          var success, result, newDelay, _ := RunLuaSandboxed(CString(luaCode[..]), counter, lua, delay);
          delay := newDelay;
          if success {
            serialWrites := serialWrites + [result];
            counter := counter + 1;
            if counter >= CounterWrap {
              counter := 0;
            }
          }
        }
      }
      sleep := SleepMillis(delay);
    }
  }

  /** `memcpy(dst, src, n)` between two distinct buffers. */
  method CopyBytes(dst: array<Byte>, src: array<Byte>, n: nat)
    requires n <= dst.Length && n <= src.Length && dst != src
    modifies dst
    ensures dst[..n] == src[..n] && dst[n..] == old(dst[n..])
  {
    forall k | 0 <= k < n {
      dst[k] := src[k];
    }
  }

  /** A C string read from a NUL-terminated buffer stops at the terminator at the latest. */
  lemma {:induction false} CStringOfTerminated(s: seq<Byte>)
    ensures CString(s + [0]) == CString(s)
  {
    if s != [] && s[0] != 0 {
      assert (s + [0])[1..] == s[1..] + [0];
      CStringOfTerminated(s[1..]);
    }
  }

  /** Printing the replies of a message one by one is `EnqueueAll`. */
  lemma EnqueueAllOne(pending: seq<seq<Byte>>, msgs: seq<seq<Byte>>)
    requires |msgs| <= 1
    ensures EnqueueAll(pending, msgs) == if msgs == [] then pending else Enqueue(pending, msgs[0])
  {
    if msgs != [] {
      assert msgs[1..] == [];
    }
  }
}
