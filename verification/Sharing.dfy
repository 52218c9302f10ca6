/** What becomes of a list of files a client shares, and of its validation. */
module Sharing {
  import opened Basics
  import opened Messages
  import opened RoomSpec
  import opened Effects

  lemma {:induction false} NoFault(files: seq<Option<RawFile>>)
    ensures FirstFault(files) == None <==> forall f :: f in files ==> Fault(f) == None
  {
    if files == [] {
    } else {
      assert files == [files[0]] + files[1..];
      NoFault(files[1..]);
    }
  }

  /** A list a client can show: not empty, and every file has a name. */
  predicate WellFormed(list: seq<SharedFile>) {
    list != [] && forall f :: f in list ==> f.name.Some?
  }

  lemma NamesDecide(files: seq<Option<RawFile>>, first: int)
    requires Shareable(Some(files))
    ensures WellFormed(Listed(files, first)) <==> Validate(files) == None
  {
    var list := Listed(files, first);
    NoFault(files);
    if WellFormed(list) {
      forall f | f in files ensures Fault(f) == None {
        var i :| 0 <= i < |files| && files[i] == f;
        assert list[i] in list;
      }
    } else if files != [] {
      var f :| f in list && f.name.None?;
      var i :| 0 <= i < |list| && list[i] == f;
      assert files[i] in files && Fault(files[i]).Some?;
    }
  }

  // ---- The validator ----

  /** A file as the validator wants it. */
  predicate Complete(f: Option<RawFile>) {
    f.Some? && f.value.clientFileId.Some? && f.value.name.Some? && f.value.size.Some?
  }

  /** The `i`th file is the first that is not complete. */
  predicate FirstAt(files: seq<Option<RawFile>>, i: nat) {
    i < |files| && !Complete(files[i]) && forall j :: 0 <= j < i ==> Complete(files[j])
  }

  lemma {:induction false} FirstFaultAt(files: seq<Option<RawFile>>, i: nat)
    requires FirstAt(files, i)
    ensures FirstFault(files) == Fault(files[i])
  {
    if i > 0 {
      assert Complete(files[0]);
      assert forall j :: 0 <= j < i - 1 ==> files[1..][j] == files[j + 1];
      FirstFaultAt(files[1..], i - 1);
    }
  }

  /** The validator accepts just the lists of complete files, and names the first thing missing in all others. */
  lemma ValidatorNamesFirstFault(files: seq<Option<RawFile>>)
    ensures Validate(files) == None <==> files != [] && forall f :: f in files ==> Complete(f)
    ensures files == [] ==> Validate(files) == Some("Files list is empty.")
    ensures forall i: nat :: FirstAt(files, i) ==>
      Validate(files) == Some(
        if files[i] == None then "File structure is not provided."
        else if files[i].value.clientFileId == None then "File clientId is not provided."
        else if files[i].value.name == None then "File name is not provided."
        else "File size is not provided.")
  {
    NoFault(files);
    forall i: nat | FirstAt(files, i) ensures FirstFault(files) == Fault(files[i]) {
      FirstFaultAt(files, i);
    }
  }

  /** The validator refuses an empty list, and the room shares and broadcasts it. */
  lemma EmptyListIsShared(r: RoomValue, id: int, raw: RawMessage, now: int)
    requires id in r.peers && raw.code == Some(CODE_FILE_SHARE) && raw.files == Some([])
    ensures Validate([]) == Some("Files list is empty.")
    ensures Handle(r, id, raw, now) == Post(r, Files(id, r.peers[id].name, now, []))
  {
  }

  /**
   The validator has no say: a list whose client ids and sizes are there is shared, announced to everybody and
   kept, never answered with an error, whether or not the validator accepts it; and what is announced is well
   formed exactly if it does.
   */
  lemma ValidatorIsIgnored(r: RoomValue, id: int, raw: RawMessage, now: int)
    requires id in r.peers && raw.code == Some(CODE_FILE_SHARE) && Shareable(raw.files)
    ensures
      var r' := Handle(r, id, raw, now);
      var list := Listed(raw.files.value, r.fileIdCounter);
      var e := Files(id, r.peers[id].name, now, list);
      && Newest(r, r', e) && AllGot(r, r', Broadcast(e)) && FilesAdded(r, r', id, |raw.files.value|)
      && !AnsweredWithError(r, id, raw)
      && (WellFormed(list) <==> Validate(raw.files.value) == None)
  {
    FilesReachAll(r, id, raw, now);
    NamesDecide(raw.files.value, r.fileIdCounter);
  }
}
