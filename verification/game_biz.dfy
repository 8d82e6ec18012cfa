/**
 * The game "biz" identifier (`GameBiz` in the launcher's core library): one game in one region or
 * channel. The launcher pages name five of its members; every other member is kept abstract as
 * `Unlisted`, and the enum's zero value, which `Enum.TryParse` writes on failure, is `Unset`.
 */
module GameBizes {
  import opened Wrappers

  datatype GameBiz =
    | Unset
    | hk4e_cn
    | hk4e_global
    | hk4e_cloud
    | hkrpg_cn
    | hkrpg_global
    | Unlisted(name: string)

  /** The names of the members this model spells out; an `Unlisted` member never carries one of them. */
  const KnownNames: seq<string> := ["None", "hk4e_cn", "hk4e_global", "hk4e_cloud", "hkrpg_cn", "hkrpg_global"]

  /** A member of the enum: an `Unlisted` one has a non-empty name of its own, without spaces. */
  predicate WellFormed(biz: GameBiz) {
    biz.Unlisted? ==> biz.name != [] && biz.name !in KnownNames && ' ' !in biz.name
  }

  /** The enum member's name, as C# string interpolation prints it. */
  function Name(biz: GameBiz): (name: string)
    ensures WellFormed(biz) ==> name != [] && ' ' !in name
    ensures biz.Unlisted? ==> name == biz.name
    ensures !biz.Unlisted? ==> name in KnownNames
  {
    match biz
    case Unset => "None"
    case hk4e_cn => "hk4e_cn"
    case hk4e_global => "hk4e_global"
    case hk4e_cloud => "hk4e_cloud"
    case hkrpg_cn => "hkrpg_cn"
    case hkrpg_global => "hkrpg_global"
    case Unlisted(n) => n
  }

  /** Different well-formed members have different names. */
  lemma NameInjective(a: GameBiz, b: GameBiz)
    requires WellFormed(a) && WellFormed(b)
    requires Name(a) == Name(b)
    ensures a == b
  {
  }

  /**
   * `Enum.TryParse` restricted to the member names this model spells out: a tag that names one of
   * them parses to it; any other tag (or a missing one) fails.
   */
  function Parse(tag: Option<string>): (r: Option<GameBiz>)
    ensures r.Some? ==> tag.Some? && Name(r.value) == tag.value && !r.value.Unlisted?
    ensures tag.Some? && tag.value in KnownNames ==> r.Some?
  {
    match tag
    case None => None
    case Some(s) =>
      if s == "None" then Some(Unset)
      else if s == "hk4e_cn" then Some(hk4e_cn)
      else if s == "hk4e_global" then Some(hk4e_global)
      else if s == "hk4e_cloud" then Some(hk4e_cloud)
      else if s == "hkrpg_cn" then Some(hkrpg_cn)
      else if s == "hkrpg_global" then Some(hkrpg_global)
      else None
  }

  /** Printing a spelled-out member and parsing the name back gives the member. */
  lemma ParseName(biz: GameBiz)
    requires !biz.Unlisted?
    ensures Parse(Some(Name(biz))) == Some(biz)
  {
  }
}
