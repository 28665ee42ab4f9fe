/**
 * The wrapper around the data-acquisition device. The device itself is
 * abstract: each task is present or absent, every call that reaches the
 * device is recorded in an event trace, and whether a call raises is an
 * input (`ok` false means the driver raised and the wrapper caught it).
 */
module DaqController {
  import opened Wrappers

  /** Which step of `initialize` raises, if any. */
  datatype InitFault =
    | NoFault
    | SystemQueryFault   // looking up the local system's devices
    | AoTaskFault        // creating the analog-output task
    | DoTaskFault        // creating the digital-output task
    | AiTaskFault        // creating the analog-input task
    | SetupFault         // adding channels or starting the input task

  /** A call that reached the device, and whether it completed. */
  datatype Event =
    | AoWrite(values: seq<real>, ok: bool)
    | DoWrite(levels: seq<int>, ok: bool)
    | AiRead(ok: bool)
    | AoClose(ok: bool)

  /** How many of the three tasks `initialize` creates before `fault` stops it. */
  function TasksCreated(fault: InitFault): nat {
    match fault
    case SystemQueryFault => 0
    case AoTaskFault => 0
    case DoTaskFault => 1
    case AiTaskFault => 2
    case _ => 3
  }

  /** The analog-output channel names in a channel specification. */
  function AoChannels(channels: map<string, seq<string>>): seq<string> {
    if "ao" in channels then channels["ao"] else []
  }

  /** The zero vector `close` writes, as written: one 0.0 per channel group. */
  function ZeroVectorAsWritten(channels: map<string, seq<string>>): seq<real> {
    seq(|channels|, _ => 0.0)
  }

  /** With one group of four output channels, the written zero vector has one element, not four. */
  lemma ZeroVectorAsWrittenMisses()
    ensures var channels := map["ao" := ["Dev1/ao3", "Dev1/ao2", "Dev1/ao1", "Dev1/ao0"]];
      |ZeroVectorAsWritten(channels)| == 1 && |AoChannels(channels)| == 4
  {
    var channels := map["ao" := ["Dev1/ao3", "Dev1/ao2", "Dev1/ao1", "Dev1/ao0"]];
    assert channels.Keys == {"ao"};
  }

  /** The zero vector as intended: one 0.0 per analog-output channel. */
  function ZeroVector(channels: map<string, seq<string>>): (z: seq<real>)
    ensures |z| == |AoChannels(channels)|
    ensures forall i :: 0 <= i < |z| ==> z[i] == 0.0
  {
    seq(|AoChannels(channels)|, _ => 0.0)
  }

  class Daq {
    const deviceName: string
    const channels: map<string, seq<string>>
    /** Whether each task is held (not `None`). */
    var aoTask: bool
    var doTask: bool
    var aiTask: bool
    /** Everything the wrapper has asked of the device, in order. */
    var trace: seq<Event>

    constructor (deviceName: string, channels: map<string, seq<string>>)
      ensures this.deviceName == deviceName && this.channels == channels
      ensures !aoTask && !doTask && !aiTask
      ensures trace == []
    {
      this.deviceName := deviceName;
      this.channels := channels;
      this.aoTask := false;
      this.doTask := false;
      this.aiTask := false;
      this.trace := [];
    }

    /**
     * `initialize`: succeeds only when the device is present and nothing
     * raises. A missing device creates no task; a fault part-way keeps the
     * tasks created before it.
     */
    method Initialize(devices: set<string>, fault: InitFault) returns (ok: bool)
      modifies this`aoTask, this`doTask, this`aiTask
      ensures ok <==> fault == NoFault && deviceName in devices
      ensures fault == SystemQueryFault || deviceName !in devices ==>
        aoTask == old(aoTask) && doTask == old(doTask) && aiTask == old(aiTask)
      ensures fault != SystemQueryFault && deviceName in devices ==>
        && aoTask == (old(aoTask) || TasksCreated(fault) >= 1)
        && doTask == (old(doTask) || TasksCreated(fault) >= 2)
        && aiTask == (old(aiTask) || TasksCreated(fault) >= 3)
    {
      if fault == SystemQueryFault || deviceName !in devices {
        return false;
      }
      if fault == AoTaskFault {
        return false;
      }
      aoTask := true;
      if fault == DoTaskFault {
        return false;
      }
      doTask := true;
      if fault == AiTaskFault {
        return false;
      }
      aiTask := true;
      ok := fault == NoFault;
    }

    /** `write_voltages`: without an output task nothing reaches the device; otherwise the result is whether the write completed. */
    method WriteVoltages(voltages: seq<real>, writeOk: bool) returns (ok: bool)
      modifies this`trace
      ensures ok <==> aoTask && writeOk
      ensures trace == if aoTask then old(trace) + [AoWrite(voltages, writeOk)] else old(trace)
    {
      if !aoTask {
        return false;
      }
      trace := trace + [AoWrite(voltages, writeOk)];
      ok := writeOk;
    }

    /** `write_digital`: the same guard on the digital-output task. */
    method WriteDigital(levels: seq<int>, writeOk: bool) returns (ok: bool)
      modifies this`trace
      ensures ok <==> doTask && writeOk
      ensures trace == if doTask then old(trace) + [DoWrite(levels, writeOk)] else old(trace)
    {
      if !doTask {
        return false;
      }
      trace := trace + [DoWrite(levels, writeOk)];
      ok := writeOk;
    }

    /** `read_analog`: `None` without an input task or when the read raises, else the measured values. */
    method ReadAnalog(readOk: bool, measured: seq<real>) returns (r: Option<seq<real>>)
      modifies this`trace
      ensures r == if aiTask && readOk then Some(measured) else None
      ensures trace == if aiTask then old(trace) + [AiRead(readOk)] else old(trace)
    {
      if !aiTask {
        return None;
      }
      trace := trace + [AiRead(readOk)];
      r := if readOk then Some(measured) else None;
    }

    /**
     * `close`: with an output task, zero every output channel, then close
     * the task; the task is dropped whether or not either call raised.
     * Without an output task it does nothing. The other two tasks are
     * left as they are.
     */
    method Close(zeroWriteOk: bool, closeOk: bool)
      modifies this`aoTask, this`trace
      ensures !aoTask
      ensures trace == if old(aoTask)
        then old(trace) + [AoWrite(ZeroVector(channels), zeroWriteOk), AoClose(closeOk)]
        else old(trace)
    {
      if aoTask {
        var _ := WriteVoltages(ZeroVector(channels), zeroWriteOk);
        trace := trace + [AoClose(closeOk)];
        aoTask := false;
      }
    }
  }

  /** Closing twice (end of the loop, then shutdown) reaches the device only once. */
  method CloseTwice(d: Daq, firstZeroOk: bool, firstCloseOk: bool, secondZeroOk: bool, secondCloseOk: bool)
    modifies d
    ensures !d.aoTask
    ensures d.trace == if old(d.aoTask)
      then old(d.trace) + [AoWrite(ZeroVector(d.channels), firstZeroOk), AoClose(firstCloseOk)]
      else old(d.trace)
  {
    d.Close(firstZeroOk, firstCloseOk);
    d.Close(secondZeroOk, secondCloseOk);
  }
}
