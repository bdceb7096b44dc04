/** The rsync module: copies a back-up directory between this node's
    temporary directory and the peer's rsync daemon, in either direction,
    with one `rsync` process run through the hub. */
module RsyncDriver {
  import opened Wrappers
  import opened Text
  import opened Common
  import opened Effects
  import Config
  import KernelMariadb

  const Program := "rsync"
  const PasswordFileFlag := "--password-file=/etc/rsyncd.passwd"

  /** The local end: a directory below the temporary directory, with a
      trailing '/' so that its contents are copied. */
  function LocalEnd(tmp: string, local: string): string {
    tmp + "/" + local + "/"
  }

  /** The remote end: a directory of the module named by the sync secret on
      the peer's rsync daemon. */
  function RemoteEnd(host: string, secret: string, remote: string): string {
    "rsync://" + host + "/" + secret + "/" + remote + "/"
  }

  datatype Direction = ToRemote | ToLocal

  /** The arguments of `SyncFilesToRemote` (local to remote) and of
      `SyncFilesToLocal` (remote to local), with the designation's
      temporary directory, peer and secret. */
  function SyncArgs(d: Direction, cfg: Config.CfgItem, sync: SyncInfo): seq<string> {
    var local := LocalEnd(Config.TmpPathOf(cfg), sync.local);
    var remote := RemoteEnd(cfg.remoteHost, cfg.syncSecret, sync.remote);
    match d
    case ToRemote => ["-avz", PasswordFileFlag, local, remote]
    case ToLocal => ["-avz", PasswordFileFlag, remote, local]
  }

  /** The two directions differ only in the order of the two ends: the
      source of one is the destination of the other. */
  lemma SyncArgsSwap(cfg: Config.CfgItem, sync: SyncInfo)
    ensures var up := SyncArgs(ToRemote, cfg, sync);
            var down := SyncArgs(ToLocal, cfg, sync);
            |up| == |down| == 4 && up[..2] == down[..2] == ["-avz", PasswordFileFlag] &&
            up[2] == down[3] == LocalEnd(Config.TmpPathOf(cfg), sync.local) &&
            up[3] == down[2] == RemoteEnd(cfg.remoteHost, cfg.syncSecret, sync.remote)
  {
  }

  /** Two names joined by a '/' split back apart when the first has none. */
  lemma {:induction false} JoinedApart(a1: string, b1: string, a2: string, b2: string)
    requires '/' !in a1 && '/' !in a2
    requires a1 + "/" + b1 == a2 + "/" + b2
    ensures a1 == a2 && b1 == b2
  {
    IndexOfFirst(a1, '/', b1);
    IndexOfFirst(a2, '/', b2);
    var s := a1 + "/" + b1;
    assert s[..|a1|] == a1 && s[|a1| + 1..] == b1;
    assert (a2 + "/" + b2)[..|a2|] == a2 && (a2 + "/" + b2)[|a2| + 1..] == b2;
  }

  /** When neither the peer nor the secret contains a '/', the remote end
      names the peer, the daemon module and the directory unambiguously. */
  lemma RemoteEndInjective(h1: string, s1: string, r1: string, h2: string, s2: string, r2: string)
    requires '/' !in h1 && '/' !in h2 && '/' !in s1 && '/' !in s2
    requires RemoteEnd(h1, s1, r1) == RemoteEnd(h2, s2, r2)
    ensures h1 == h2 && s1 == s2 && r1 == r2
  {
    var x1, x2 := RemoteEnd(h1, s1, r1), RemoteEnd(h2, s2, r2);
    assert x1[8..] == h1 + "/" + (s1 + "/" + (r1 + "/"));
    assert x2[8..] == h2 + "/" + (s2 + "/" + (r2 + "/"));
    JoinedApart(h1, s1 + "/" + (r1 + "/"), h2, s2 + "/" + (r2 + "/"));
    JoinedApart(s1, r1 + "/", s2, r2 + "/");
    assert r1 == (r1 + "/")[..|r1|];
    assert r2 == (r2 + "/")[..|r2|];
  }

  /** Below one temporary directory, different names are different local
      ends. */
  lemma LocalEndInjective(tmp: string, l1: string, l2: string)
    requires LocalEnd(tmp, l1) == LocalEnd(tmp, l2)
    ensures l1 == l2
  {
    assert LocalEnd(tmp, l1)[|tmp| + 1..|tmp| + 1 + |l1|] == l1;
    assert LocalEnd(tmp, l2)[|tmp| + 1..|tmp| + 1 + |l2|] == l2;
  }

  /** For the kernel's request, the local end is the service's own back-up
      directory: stripping the temporary directory there and prefixing it
      here cancel out, provided the back-up directory lies below it. */
  lemma LocalEndIsBackPath(info: ServiceInfo, remotePath: string, tmp: string)
    requires KernelMariadb.Placed(info, tmp) && |tmp| < |remotePath|
    requires KernelMariadb.BackPath(info)[..|tmp| + 1] == tmp + "/"
    ensures LocalEnd(tmp, KernelMariadb.SyncInfoOf(info, remotePath, tmp).local) == KernelMariadb.BackPath(info) + "/"
  {
    var p := KernelMariadb.BackPath(info);
    assert p == p[..|tmp| + 1] + p[|tmp| + 1..];
  }

  /** The rsync module, reading the package-wide designation from `store`. */
  class Rsync {
    const hub: Hub
    const store: Config.Store

    constructor (h: Hub, s: Config.Store)
      ensures hub == h && store == s
    {
      hub := h;
      store := s;
    }

    /** `SyncFilesToRemote`: one `rsync` run from the local end to the
        remote end; its error is the answer. */
    method SyncFilesToRemote(sync: SyncInfo) returns (err: Outcome)
      modifies hub
      ensures var c := Execute(Program, SyncArgs(ToRemote, store.configItem, sync));
              hub.trace == old(hub.trace) + [c] && err == ErrorOf(hub.reply(|old(hub.trace)|, c))
    {
      var source := LocalEnd(Config.TmpPathOf(store.configItem), sync.local);
      var destination := RemoteEnd(store.configItem.remoteHost, store.configItem.syncSecret, sync.remote);
      var reply := hub.Send(Execute(Program, ["-avz", PasswordFileFlag, source, destination]));
      err := ErrorOf(reply);
    }

    /** `SyncFilesToLocal`: the same run with the two ends exchanged. */
    method SyncFilesToLocal(sync: SyncInfo) returns (err: Outcome)
      modifies hub
      ensures var c := Execute(Program, SyncArgs(ToLocal, store.configItem, sync));
              hub.trace == old(hub.trace) + [c] && err == ErrorOf(hub.reply(|old(hub.trace)|, c))
    {
      var source := RemoteEnd(store.configItem.remoteHost, store.configItem.syncSecret, sync.remote);
      var destination := LocalEnd(Config.TmpPathOf(store.configItem), sync.local);
      var reply := hub.Send(Execute(Program, ["-avz", PasswordFileFlag, source, destination]));
      err := ErrorOf(reply);
    }
  }
}
