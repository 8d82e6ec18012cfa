/**
 * The single-instance check before an elevated download: the OS application-instance registry maps a
 * key to the launcher instance registered for it, and activation can be redirected to that holder.
 */
module InstanceGate {
  import opened GameBizes

  /** One running launcher process. */
  type InstanceId = nat

  datatype Redirect = Redirect(from: InstanceId, to: InstanceId)

  /** The registered key holders, and the activations redirected so far. */
  datatype Registry = Registry(holders: map<string, InstanceId>, redirects: seq<Redirect>)

  const DownloadKeyPrefix := "download_game_"

  /** `$"download_game_{gameBiz}"` */
  function DownloadKey(biz: GameBiz): (key: string)
    ensures DownloadKeyPrefix <= key && key[|DownloadKeyPrefix|..] == Name(biz)
  {
    DownloadKeyPrefix + Name(biz)
  }

  /** Different (well-formed) bizzes never share a key, so their downloads are gated independently. */
  lemma DownloadKeyInjective(a: GameBiz, b: GameBiz)
    requires WellFormed(a) && WellFormed(b)
    requires DownloadKey(a) == DownloadKey(b)
    ensures a == b
  {
    NameInjective(a, b);
  }

  /**
   * `AppInstance.FindOrRegisterForKey`: the instance registered for the key, or, when there is
   * none, this instance, registered for it from now on.
   */
  function FindOrRegisterForKey(r: Registry, key: string, self: InstanceId): (found: (InstanceId, Registry))
    ensures key in found.1.holders && found.1.holders[key] == found.0
    ensures key in r.holders ==> found == (r.holders[key], r)
    ensures key !in r.holders ==> found.0 == self && found.1 == r.(holders := r.holders[key := self])
  {
    if key in r.holders then (r.holders[key], r)
    else (self, r.(holders := r.holders[key := self]))
  }

  /** Another launcher instance is registered for the biz's download key. */
  predicate HeldByOther(r: Registry, self: InstanceId, biz: GameBiz) {
    DownloadKey(biz) in r.holders && r.holders[DownloadKey(biz)] != self
  }

  datatype GateDecision = GateDecision(abort: bool, registry: Registry)

  /**
   * `CheckRedirectInstanceAsync`: when another instance holds the key, this activation is
   * redirected to it and the caller aborts; otherwise the key, found or just registered for this
   * instance, is unregistered at once and the caller goes on.
   */
  function CheckRedirectInstance(r: Registry, self: InstanceId, biz: GameBiz): (d: GateDecision)
    ensures d.abort <==> HeldByOther(r, self, biz)
    ensures d.abort ==> d.registry == r.(redirects := r.redirects + [Redirect(self, r.holders[DownloadKey(biz)])])
    ensures !d.abort ==> d.registry == r.(holders := r.holders - {DownloadKey(biz)})
  {
    var key := DownloadKey(biz);
    var found := FindOrRegisterForKey(r, key, self);
    if found.0 != self then
      GateDecision(true, found.1.(redirects := found.1.redirects + [Redirect(self, found.0)]))
    else
      GateDecision(false, found.1.(holders := found.1.holders - {key}))
  }

  /**
   * The claim is not held: once one instance has passed the check, a second instance checking the
   * same biz passes too, and neither leaves a registration behind.
   */
  lemma ClaimNotHeld(r: Registry, first: InstanceId, second: InstanceId, biz: GameBiz)
    requires !HeldByOther(r, first, biz)
    ensures var d1 := CheckRedirectInstance(r, first, biz);
      var d2 := CheckRedirectInstance(d1.registry, second, biz);
      !d1.abort && !d2.abort && DownloadKey(biz) !in d2.registry.holders
  {
  }

  /** A registration left behind by this same instance does not block it; it is dropped. */
  lemma OwnStaleRegistrationDropped(r: Registry, self: InstanceId, biz: GameBiz)
    requires DownloadKey(biz) in r.holders && r.holders[DownloadKey(biz)] == self
    ensures var d := CheckRedirectInstance(r, self, biz);
      !d.abort && DownloadKey(biz) !in d.registry.holders && d.registry.redirects == r.redirects
  {
  }

  /** The check touches no other key. */
  lemma OtherKeysUntouched(r: Registry, self: InstanceId, biz: GameBiz, key: string)
    requires key != DownloadKey(biz)
    ensures var d := CheckRedirectInstance(r, self, biz);
      (key in d.registry.holders <==> key in r.holders)
      && (key in r.holders ==> d.registry.holders[key] == r.holders[key])
  {
  }
}
