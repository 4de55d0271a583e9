/** The web service of service.go: its configuration, its construction by
    NewWeb, its controller registry and its teardown. */
module WebService {
  import opened Wrappers
  import opened Addressing
  import opened Teardown

  /** service.go:19-28. */
  datatype WebConfig = WebConfig(
    name: string, host: string, port: int,
    user: string, pass: string, key: string,
    templateDir: string, staticDir: string)

  /** A `*WebConfig`: the configuration object NewWeb writes the defaulted host into. */
  class WebConfigRef {
    var value: WebConfig

    constructor (v: WebConfig)
      ensures value == v
    {
      value := v;
    }
  }

  /** The configuration after NewWeb's write-back (service.go:74-79). */
  function WithDefaultHost(c: WebConfig): (r: WebConfig)
    // only the host is ever touched, and only when it is empty and a port is given
    ensures r.(host := c.host) == c
    ensures r != c ==> c.host == "" && c.port > 0 && r.host == Loopback
    // the written-back configuration resolves to the same address, and is a fixed point
    ensures ListenAddress(r.host, r.port) == ListenAddress(c.host, c.port)
    ensures EffectiveHost(r.host, r.port) == r.host
  {
    c.(host := EffectiveHost(c.host, c.port))
  }

  /** service.go:36-44; the router, the `Exit` channel and the serving goroutine are not modelled. */
  class Service {
    var name: string
    var home: Option<string>
    var config: WebConfigRef?
    /** `Server.Addr`: the listen address, empty when there is none. */
    var serverAddr: string
    var controllers: seq<Option<ControllerId>>

    constructor (name: string, home: Option<string>, config: WebConfigRef?, serverAddr: string)
      ensures this.name == name && this.home == home && this.config == config
      ensures this.serverAddr == serverAddr && controllers == []
    {
      this.name := name;
      this.home := home;
      this.config := config;
      this.serverAddr := serverAddr;
      controllers := [];
    }

    /** service.go:143-145: append, nil included. */
    method Register(c: Option<ControllerId>)
      modifies this
      ensures controllers == old(controllers) + [c]
      ensures name == old(name) && home == old(home) && config == old(config) && serverAddr == old(serverAddr)
    {
      controllers := controllers + [c];
    }

    /** service.go:132-140: close each non-nil controller in registration order, then the server. */
    method Close(t: Trace)
      modifies t
      ensures t.events == old(t.events) + ServiceCloseEvents(controllers)
    {
      for i := 0 to |controllers|
        invariant t.events == old(t.events) + CloseEvents(controllers[..i])
      {
        assert controllers[..i + 1][..i] == controllers[..i];
        var c := controllers[i];
        if c.Some? {
          t.Record(ControllerClosed(c.value));
        }
      }
      assert controllers[..|controllers|] == controllers;
      t.Record(ServerClosed);
    }
  }

  /** service.go:47-92. `loaded` is what the configuration file holds under "server",
      used only when `conf` is nil. A non-nil `conf` is written through. */
  method NewWeb(conf: WebConfigRef?, loaded: WebConfig) returns (s: Service)
    modifies conf
    ensures fresh(s)
    ensures conf != null ==> conf.value == WithDefaultHost(old(conf.value))
    ensures var c := if conf != null then old(conf.value) else loaded;
      && s.name == c.name
      && s.serverAddr == AddrString(ListenAddress(c.host, c.port))
      && s.home == HomeUrl(s.serverAddr)
    ensures s.config == conf && s.controllers == []
  {
    var serverConfig: WebConfigRef;
    if conf == null {
      serverConfig := new WebConfigRef(loaded);
    } else {
      serverConfig := conf;
    }
    var addr := "";
    if serverConfig.value.host == "" {
      if serverConfig.value.port > 0 {
        serverConfig.value := serverConfig.value.(host := Loopback);
        addr := Loopback + ":" + Decimals.Decimal(serverConfig.value.port);
      }
    } else if serverConfig.value.port <= 0 {
      addr := serverConfig.value.host;
    } else {
      addr := serverConfig.value.host + ":" + Decimals.Decimal(serverConfig.value.port);
    }
    var home := None;
    if addr != "" {
      home := Some("http://" + addr);
    }
    s := new Service(serverConfig.value.name, home, conf, addr);
  }

  /** After registering `c`, closing the service closes everything closed before, then `c` if it is not nil. */
  lemma RegisterThenClose(cs: seq<Option<ControllerId>>, c: Option<ControllerId>)
    ensures ServiceCloseEvents(cs + [c]) ==
      CloseEvents(cs) + (if c.Some? then [ControllerClosed(c.value)] else []) + [ServerClosed]
  {
    assert (cs + [c])[..|cs|] == cs;
  }
}
