/** The normalized snapshot: what the boundary check returns (aisecure/schema.py) and what
    the detection rules and the evaluation read (aisecure/engine.py, aisecure/evaluate.py). */
module Snapshots {
  import opened Common

  const LEEWAY := 300

  datatype Source = Source(name: string, sha256: string, rowsRead: int, rowsImported: int)

  datatype Vulnerability = Vulnerability(reference: string, cvss: Option<real>, knownExploited: Option<bool>)

  datatype Asset = Asset(id: string, kind: string, patch: string, observedAt: int, vulnerability: Option<Vulnerability>,
                         exposed: Option<bool>, privilegedPath: Option<bool>, sensitivePath: Option<bool>)

  datatype Event =
    | Login(id: string, at: int, actor: string, session: string, gateway: string, success: bool,
            privileged: Option<bool>, deviceTrusted: Option<bool>, approved: Option<bool>)
    | FileAccess(id: string, at: int, actor: string, session: string, asset: string, file: string,
                 sensitive: Option<bool>, bytes: Option<int>)

  datatype Normal = Normal(asOf: int, assets: seq<Asset>, events: seq<Event>, provenance: seq<Source>)

  function AssetIds(assets: seq<Asset>): set<string> { set a | a in assets :: a.id }

  /** The asset an event names. */
  function TargetOf(e: Event): string { if e.Login? then e.gateway else e.asset }

  /** What every accepted snapshot meets: an asset at least, no identifier used twice, every
      reference listed, and no time after the snapshot's. */
  ghost predicate Sound(s: Normal) {
    && s.assets != []
    && (forall i, j :: 0 <= i < j < |s.assets| ==> s.assets[i].id != s.assets[j].id)
    && (forall i, j :: 0 <= i < j < |s.events| ==> s.events[i].id != s.events[j].id)
    && (forall e :: e in s.events ==> TargetOf(e) in AssetIds(s.assets) && e.at <= s.asOf + LEEWAY)
    && (forall a :: a in s.assets ==> a.observedAt <= s.asOf + LEEWAY)
  }
}
