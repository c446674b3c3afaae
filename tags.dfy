/** Tag merge, written three times in the application with the same body
  * (Features/Tags/CreateTags/CreateTagsCommand.cs, Services/TagService.cs,
  * Persistence/Repositories/TagRepository.cs): the stored tags whose id is
  * requested, then a new tag for every requested id not yet in the list.
  * The normalisation of the request (FormatTags) is not part of this model:
  * the normalised ids are the input. Nothing is written to the database. */
module TagMerge {
  import opened Entities

  /** The normalised ids as new tag objects. */
  function AsTags(ids: seq<string>): (tags: seq<Tag>)
    ensures |tags| == |ids|
    ensures forall i :: 0 <= i < |ids| ==> tags[i] == Tag(ids[i])
  {
    seq(|ids|, i requires 0 <= i < |ids| => Tag(ids[i]))
  }

  lemma AsTagsIds(ids: seq<string>)
    ensures TagIds(AsTags(ids)) == set id | id in ids
  {
    var tags := AsTags(ids);
    forall id | id in ids ensures id in TagIds(tags) {
      var i :| 0 <= i < |ids| && ids[i] == id;
      assert tags[i] in tags;
    }
  }

  /** What the merge returns: the query's result in store order, extended by
    * the lazily filtered foreach, which sees the tags it has already added. */
  function MergedTags(stored: seq<Tag>, ids: seq<string>): seq<Tag>
  {
    AddMissing(KeepRequested(stored, AsTags(ids)), AsTags(ids))
  }

  /** The query and the foreach, one tag at a time. */
  method MergeTags(stored: seq<Tag>, ids: seq<string>) returns (tags: seq<Tag>)
    ensures tags == MergedTags(stored, ids)
  {
    var requested := AsTags(ids);
    AsTagsIds(ids);
    tags := [];
    var i := 0;
    while i < |stored|
      invariant 0 <= i <= |stored|
      invariant tags == KeepRequested(stored[..i], requested)
    {
      if stored[i].id in ids {
        tags := tags + [stored[i]];
      }
      assert stored[..i + 1][..i] == stored[..i];
      i := i + 1;
    }
    assert stored[..i] == stored;
    var j := 0;
    while j < |ids|
      invariant 0 <= j <= |ids|
      invariant AddMissing(tags, requested[j..]) == MergedTags(stored, ids)
    {
      assert requested[j..][1..] == requested[j + 1..];
      if forall k :: 0 <= k < |tags| ==> tags[k].id != ids[j] {
        assert ids[j] !in TagIds(tags);
        tags := tags + [Tag(ids[j])];
      } else {
        assert ids[j] in TagIds(tags);
      }
      j := j + 1;
    }
  }

  lemma {:induction false} AddMissingOrigin(acc: seq<Tag>, requested: seq<Tag>, t: Tag)
    requires t in AddMissing(acc, requested)
    ensures t in acc || (t in requested && t.id !in TagIds(acc))
    decreases |requested|
  {
    if requested != [] {
      var x := requested[0];
      var next := if x.id in TagIds(acc) then acc else acc + [x];
      AddMissingOrigin(next, requested[1..], t);
      assert TagIds(acc) <= TagIds(next) by {
        TagIdsAppend(acc, [x]);
      }
      assert t in requested[1..] ==> t in requested;
    }
  }

  /** Every normalised id has a tag in the result, and the result has no tag
    * whose id was not requested. */
  lemma MergedTagsIds(stored: seq<Tag>, ids: seq<string>)
    ensures TagIds(MergedTags(stored, ids)) == set id | id in ids
  {
    var requested := AsTags(ids);
    var k := KeepRequested(stored, requested);
    KeepRequestedMembers(stored, requested);
    AddMissingIds(k, requested);
    AsTagsIds(ids);
    assert TagIds(k) <= TagIds(requested);
  }

  /** A stored tag whose id is requested is returned itself. */
  lemma MergedTagsReuses(stored: seq<Tag>, ids: seq<string>, t: Tag)
    requires t in stored && t.id in ids
    ensures t in MergedTags(stored, ids)
  {
    AsTagsIds(ids);
    SyncTagsReuses(stored, AsTags(ids), t);
  }

  /** A tag that was not stored is returned only for an id that has no
    * stored tag. */
  lemma MergedTagsCreatesOnlyMissing(stored: seq<Tag>, ids: seq<string>, t: Tag)
    requires t in MergedTags(stored, ids) && t !in stored
    ensures t.id !in TagIds(stored)
  {
    var requested := AsTags(ids);
    var k := KeepRequested(stored, requested);
    KeepRequestedMembers(stored, requested);
    AddMissingOrigin(k, requested, t);
    assert t in requested && t.id !in TagIds(k);
    forall s | s in stored ensures s.id != t.id {
      assert s.id in TagIds(requested) ==> s.id in TagIds(k) by {
        if s.id in TagIds(requested) {
          assert s in k;
        }
      }
    }
  }

  /** With unique stored ids the result has exactly one tag per normalised
    * id, even when an id is requested twice. */
  lemma MergedTagsUnique(stored: seq<Tag>, ids: seq<string>)
    requires UniqueTagIds(stored)
    ensures UniqueTagIds(MergedTags(stored, ids))
  {
    KeepRequestedUnique(stored, AsTags(ids));
    AddMissingUnique(KeepRequested(stored, AsTags(ids)), AsTags(ids));
  }
}
