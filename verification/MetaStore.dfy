/** Manifests and the registry's metadata as nested maps (ctf-registry/store/store.go, ctf-registry/manifest/manifest.go). */
module MetaStore {
  import opened Common

  datatype Descriptor = Descriptor(mediaType: string, digest: Digest, size: nat, artifactType: Option<string>)

  datatype Manifest = Manifest(
    mediaType: string,
    artifactType: Option<string>,
    config: Option<Descriptor>,
    layers: Option<seq<Descriptor>>,
    subject: Option<Descriptor>)

  datatype Meta = Meta(
    blobs: set<(Repo, Digest)>,
    tags: map<(Repo, string), Digest>,
    refs: map<(Repo, Digest), seq<Descriptor>>)

  // How an operation of a store fails.
  datatype StoreError = StoreFail | NotFound

  const EMPTY := Meta({}, map[], map[])

  function AddBlob(m: Meta, repo: Repo, d: Digest): Meta { m.(blobs := m.blobs + {(repo, d)}) }
  function DeleteBlob(m: Meta, repo: Repo, d: Digest): Meta { m.(blobs := m.blobs - {(repo, d)}) }
  function SaveTag(m: Meta, repo: Repo, d: Digest, tag: string): Meta { m.(tags := m.tags[(repo, tag) := d]) }
  function DeleteTag(m: Meta, repo: Repo, tag: string): Meta { m.(tags := m.tags - {(repo, tag)}) }

  function References(m: Meta, repo: Repo, d: Digest): seq<Descriptor> {
    if (repo, d) in m.refs then m.refs[(repo, d)] else []
  }

  function AddReference(m: Meta, repo: Repo, d: Digest, desc: Descriptor): Meta {
    m.(refs := m.refs[(repo, d) := References(m, repo, d) + [desc]])
  }

  /** The referrers of one artifact type, absent types left out (the Dynamo store's filter). */
  function OfType(list: seq<Descriptor>, artifact: string): seq<Descriptor> {
    if list == [] then []
    else
      var rest := OfType(list[..|list| - 1], artifact);
      if list[|list| - 1].artifactType == Some(artifact) then rest + [list[|list| - 1]] else rest
  }

  /** r is the list at increasing positions `at`: those of all the descriptors that have the type, and of no other. */
  ghost predicate Selects(list: seq<Descriptor>, artifact: string, at: seq<nat>, r: seq<Descriptor>) {
    && |r| == |at| && (forall j, k | 0 <= j < k < |at| :: at[j] < at[k])
    && (forall k | 0 <= k < |at| :: at[k] < |list| && r[k] == list[at[k]] && r[k].artifactType == Some(artifact))
    && (forall i | 0 <= i < |list| && list[i].artifactType == Some(artifact) :: i in at)
  }

  /** The filter selects: it keeps every referrer that has the type, in the order of the list, and no other. */
  lemma {:induction false} OfTypeSelects(list: seq<Descriptor>, artifact: string) returns (at: seq<nat>)
    ensures Selects(list, artifact, at, OfType(list, artifact))
  {
    at := [];
    if list != [] {
      var n := |list| - 1;
      at := OfTypeSelects(list[..n], artifact);
      assert forall i | 0 <= i < n :: list[..n][i] == list[i];
      if list[n].artifactType == Some(artifact) {
        ghost var more := at + [n];
        assert forall i | 0 <= i < n && list[i].artifactType == Some(artifact) :: i in at && i in more;
        at := more;
      }
    }
  }
}
