/** runtime/firecracker/vm.go: the life of one microVM and its host process. */
module VirtualMachine {

  datatype State = Idle | Starting | Running | Stopped

  /** The `exec.Cmd` of a VM: none, built but not spawned, or a process. */
  datatype Cmd = NoCmd | Unspawned | Process(pid: int, alive: bool)

  /** The first step of Start that fails. */
  datatype StartFault =
    | NoFault
    | BadConfig | MakeDir | CopyRootfs | LogFile | Spawn | Socket
    | MachineConfig | BootSource | Drive | Nic | Boot

  class VM {
    const tapDevice: string
    var state: State
    var pid: int
    var cmd: Cmd
    var connected: bool
    var dirExists: bool

    /** The host runs a process for this VM. */
    predicate Live()
      reads this
    {
      cmd.Process? && cmd.alive
    }

    /** Between calls a process is alive exactly while the VM counts as running. */
    ghost predicate Valid()
      reads this
    {
      state != Starting && (Live() <==> state == Running)
    }

    constructor (tapDevice: string)
      ensures Valid() && state == Idle && !dirExists && this.tapDevice == tapDevice
    {
      this.tapDevice := tapDevice;
      state, pid, cmd, connected, dirExists := Idle, 0, NoCmd, false, false;
    }

    /** Adding the network interface is skipped for a VM without a device. */
    predicate Succeeds(fault: StartFault) {
      fault == NoFault || (fault == Nic && tapDevice == "")
    }

    /** Boots the VM.  A start that fails leaves no process behind; it leaves the VM directory
        behind exactly when it fails between making the directory and spawning the process, or
        when the clean-up of a later failure cannot remove it. */
    method Start(fault: StartFault, newPid: int, cleanOk: bool) returns (ok: bool)
      requires Valid()
      modifies this
      ensures Valid()
      ensures old(state) == Running ==>
        !ok && state == Running && pid == old(pid) && cmd == old(cmd) && dirExists == old(dirExists)
      ensures old(state) != Running ==> (ok <==> Succeeds(fault))
      ensures old(state) != Running ==> (ok <==> fault == NoFault || (fault == Nic && tapDevice == ""))
      ensures ok ==> state == Running && cmd == Process(newPid, true) && pid == newPid && connected && dirExists
      ensures old(state) != Running && !ok ==> cmd.Process? ==> !cmd.alive
      ensures old(state) != Running && !ok ==> state == Stopped && !Live()
      ensures old(state) != Running && !ok ==>
        dirExists == (if fault in {BadConfig, MakeDir} then old(dirExists)
                      else fault in {CopyRootfs, LogFile, Spawn} || !cleanOk)
    {
      if state == Running {
        return false;
      }
      state := Starting;
      if fault == BadConfig {
        state := Stopped;
        return false;
      }
      if fault == MakeDir {
        state := Stopped;
        return false;
      }
      dirExists := true;
      if fault == CopyRootfs {
        state := Stopped;
        return false;
      }
      ok := StartProcess(fault, newPid);
      if !ok {
        state := Stopped;
        return false;
      }
      if fault == Socket {
        Stop(cleanOk);
        return false;
      }
      connected := true;
      ok := Configure(fault);
      if !ok {
        Stop(cleanOk);
        return false;
      }
      if fault == Boot {
        Stop(cleanOk);
        return false;
      }
      state := Running;
      return true;
    }

    method StartProcess(fault: StartFault, newPid: int) returns (ok: bool)
      requires !Live()
      modifies this`cmd, this`pid
      ensures ok <==> fault !in {LogFile, Spawn}
      ensures ok ==> Live() && cmd == Process(newPid, true) && pid == newPid
      ensures !ok ==> !Live() && pid == old(pid)
    {
      if fault == LogFile {
        return false;
      }
      cmd := Unspawned;
      if fault == Spawn {
        return false;
      }
      cmd := Process(newPid, true);
      pid := newPid;
      return true;
    }

    method Configure(fault: StartFault) returns (ok: bool)
      ensures ok <==> fault !in {MachineConfig, BootSource, Drive} && (fault == Nic ==> tapDevice == "")
    {
      if fault == MachineConfig {
        return false;
      }
      if fault == BootSource {
        return false;
      }
      if fault == Drive {
        return false;
      }
      if tapDevice != "" {
        if fault == Nic {
          return false;
        }
      }
      return true;
    }

    /** Signals and then kills the process, and waits for it either way. */
    method Stop(cleanOk: bool)
      modifies this`state, this`cmd, this`dirExists
      ensures Valid() && state == Stopped && !Live() && (cmd.Process? ==> !cmd.alive)
      ensures dirExists == (old(dirExists) && !cleanOk)
    {
      if cmd.Process? {
        cmd := Process(cmd.pid, false);
      }
      if cleanOk {
        dirExists := false;
      }
      state := Stopped;
    }
  }
}
