/**
 * The package entry point (brewery.go): build the ledger, then the four
 * tanks, of which only the hlt is the master.
 */
module Brewery {
  import opened Wrappers
  import opened Ledger
  import opened Tanks

  function WithAfter(a: Clock): Setting {
    AfterSetting(a)
  }

  function WithTimer(t: Clock): Setting {
    TimerSetting(t)
  }

  function WithPoller(p: Poller): Setting {
    PollerSetting(p)
  }

  /**
   * New: on a ledger error the package ledger is nil and no tank is made;
   * otherwise each vessel has its tank, registered with the fresh ledger.
   */
  method New(pkg: Package, cfg: Config, opts: seq<Setting>, gpioOk: bool)
    returns (hlt: Tank?, tun: Tank?, boiler: Tank?, carboy: Tank?, err: Option<Error>)
    modifies pkg
    ensures err.Some? <==> PollerOf(opts, None) == None && !gpioOk
    ensures err.Some? ==> pkg.vol == null && hlt == null && tun == null && boiler == null && carboy == null
    ensures err.None? ==>
      && pkg.vol != null && fresh(pkg.vol)
      && hlt != null && tun != null && boiler != null && carboy != null
      && hlt.master && !tun.master && !boiler.master && !carboy.master
      && hlt.name == Hlt && tun.name == Tun && boiler.name == Boiler && carboy.name == Carboy
      && hlt.pkg == pkg && tun.pkg == pkg && boiler.pkg == pkg && carboy.pkg == pkg
      && pkg.vol.updates == map[Hlt := hlt.Listener(), Tun := tun.Listener(),
                                Boiler := boiler.Listener(), Carboy := carboy.Listener()]
      && pkg.vol.volumes == map[Hlt := 0.0, Tun := 0.0]
      && Total(pkg.vol.volumes) == 0.0
  {
    var r := NewVolumeManager(cfg, opts, gpioOk);
    if r.Failure? {
      pkg.vol := null;
      return null, null, null, null, Some(r.error);
    }
    pkg.vol := r.value;
    hlt := new Tank(Hlt, [MasterTank], pkg);
    tun := new Tank(Tun, [], pkg);
    boiler := new Tank(Boiler, [], pkg);
    carboy := new Tank(Carboy, [], pkg);
    err := None;
  }
}
