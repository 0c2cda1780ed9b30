/**
 * The four input devices of the rig (tank.go): each Tank reports the volume
 * the ledger holds for its vessel, and the master tank forwards every other
 * message to the ledger.
 */
module Tanks {
  import opened Gadgets
  import opened Ledger

  /** The package-level `vol` that New assigns and every Tank shares. */
  class Package {
    var vol: VolumeManager?

    constructor ()
      ensures vol == null
    {
      vol := null;
    }
  }

  /** The only Tank option of the package, masterTank. */
  datatype TankOption = MasterTank

  /** sendUpdate's message: the tank's volume in gallons. */
  function Status(uid: string, name: string, gallons: real): (m: Message)
    ensures m.sender == uid && m.location == name && m.name == "volume" && m.typ == "update"
    ensures m.value == Number(gallons) && m.units == "gallons"
  {
    Update(uid, name, "volume", gallons, "gallons")
  }

  class Tank {
    const master: bool
    const name: string
    const uid: string
    const pkg: Package
    /** Everything the tank has sent on its output channel, in order. */
    var out: seq<Message>

    /** NewTank: apply the options, then register this tank's sendUpdate for its vessel. */
    constructor (name: string, opts: seq<TankOption>, pkg: Package)
      requires pkg.vol != null
      modifies pkg.vol`updates
      ensures this.name == name && uid == name + " volume" && this.pkg == pkg && out == []
      ensures master <==> MasterTank in opts
      ensures pkg.vol.updates == old(pkg.vol.updates)[name := SendUpdate(name + " volume", name)]
    {
      this.name := name;
      uid := name + " volume";
      this.pkg := pkg;
      out := [];
      var m := false;
      for i := 0 to |opts|
        invariant m <==> MasterTank in opts[..i]
      {
        assert opts[..i + 1] == opts[..i] + [opts[i]];
        assert opts[i] == MasterTank;
        m := true;
      }
      assert opts[..|opts|] == opts;
      master := m;
      new;
      pkg.vol.Register(name, SendUpdate(uid, name));
    }

    /** The callback the ledger holds for this tank. */
    function Listener(): Ledger.Listener
      reads this
    {
      SendUpdate(uid, name)
    }

    /**
     * The ledger calling this tank's registered sendUpdate: a notice addressed
     * to this tank's listener puts the status with the notified gallons on its
     * output channel.
     */
    method Deliver(n: Notice)
      requires n.to == Listener()
      modifies this`out
      ensures out == old(out) + [Status(n.to.uid, n.to.name, n.gallons)]
      ensures out[|out| - 1] == Status(uid, name, n.gallons)
    {
      out := out + [Status(uid, name, n.gallons)];
    }

    /** Start, before its receive loop: announce the current volume of the vessel. */
    method Start()
      requires pkg.vol != null
      modifies this`out
      ensures out == [Status(uid, name, pkg.vol.Get(name))]
    {
      out := [Status(uid, name, pkg.vol.Get(name))];
    }

    /**
     * readMessage: an "update" command re-announces the volume; anything else
     * goes to the ledger, from the master tank only.
     */
    method ReadMessage(msg: Message, since: real)
      requires pkg.vol != null
      requires master && !IsCommand(msg, "update") ==>
        (pkg.vol.EventOf(msg) == CloseTun ==> Hlt in pkg.vol.updates && Tun in pkg.vol.updates)
        && (pkg.vol.EventOf(msg) == PumpOff ==> Carboy in pkg.vol.updates && Boiler in pkg.vol.updates)
      modifies this`out
      modifies pkg.vol`fillingTun, pkg.vol`startHlt, pkg.vol`startTun, pkg.vol`fillingBoiler
      modifies pkg.vol`floatWaits, pkg.vol`volumes, pkg.vol`notices
      ensures IsCommand(msg, "update") ==>
        out == old(out) + [Status(uid, name, pkg.vol.Get(name))]
        && pkg.vol.volumes == old(pkg.vol.volumes) && pkg.vol.notices == old(pkg.vol.notices)
        && pkg.vol.fillingTun == old(pkg.vol.fillingTun) && pkg.vol.fillingBoiler == old(pkg.vol.fillingBoiler)
        && pkg.vol.floatWaits == old(pkg.vol.floatWaits)
        && pkg.vol.startHlt == old(pkg.vol.startHlt) && pkg.vol.startTun == old(pkg.vol.startTun)
      ensures !IsCommand(msg, "update") && !master ==>
        out == old(out)
        && pkg.vol.volumes == old(pkg.vol.volumes) && pkg.vol.notices == old(pkg.vol.notices)
        && pkg.vol.fillingTun == old(pkg.vol.fillingTun) && pkg.vol.fillingBoiler == old(pkg.vol.fillingBoiler)
        && pkg.vol.floatWaits == old(pkg.vol.floatWaits)
        && pkg.vol.startHlt == old(pkg.vol.startHlt) && pkg.vol.startTun == old(pkg.vol.startTun)
      ensures !IsCommand(msg, "update") && master ==>
        out == old(out) && pkg.vol.Handled(old(pkg.vol.EventOf(msg)), since)
    {
      if IsCommand(msg, "update") {
        out := out + [Status(uid, name, pkg.vol.Get(name))];
      } else if master {
        pkg.vol.ReadMessage(msg, since);
      }
    }
  }
}
