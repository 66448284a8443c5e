/** The admin image-gallery dialog of one car or part: drag-to-reorder, the
    file names sent to the reorder endpoint, deletion by file name, and the
    upload guard. The storage calls are cut away: each handler takes whether
    its request succeeded and returns what it would send. */
module ImageGallery {
  import opened Wrappers
  import opened Strings
  import opened Items

  /** `type === 'car' ? 'carId' : 'usedCarPartId'`, the query parameter naming the entity. */
  function IdParam(kind: Kind): (p: string)
    ensures p == "carId" <==> kind == CarKind
    ensures p == "usedCarPartId" <==> kind == UsedCarPartKind
  {
    match kind
    case CarKind =>
      assert "usedCarPartId"[0] == 'u' && "carId"[0] == 'c';
      "carId"
    case UsedCarPartKind =>
      assert "usedCarPartId"[0] == 'u' && "carId"[0] == 'c';
      "usedCarPartId"
  }

  /** `type === 'car' ? 'cars' : 'used-car-parts'`, the API collection of
      the entity: the same segment as the kind's inventory pages. */
  function EntityPath(kind: Kind): (p: string)
    ensures p == "cars" <==> kind == CarKind
    ensures p == "used-car-parts" <==> kind == UsedCarPartKind
    ensures p == KindSegment(kind)
  {
    match kind
    case CarKind =>
      assert "used-car-parts"[0] == 'u' && "cars"[0] == 'c';
      "cars"
    case UsedCarPartKind =>
      assert "used-car-parts"[0] == 'u' && "cars"[0] == 'c';
      "used-car-parts"
  }

  /** `a.splice(i, 1)` on a copy: the list without its element at `i`. */
  function SpliceRemove<T>(s: seq<T>, i: nat): seq<T>
    requires i < |s|
  {
    s[..i] + s[i + 1..]
  }

  /** `a.splice(i, 0, x)` on a copy: an index past the end appends. */
  function SpliceInsert<T>(s: seq<T>, i: nat, x: T): seq<T> {
    var k := if i <= |s| then i else |s|;
    s[..k] + [x] + s[k..]
  }

  /** Where a dragged element lands in a list of `n` elements. */
  function Landing(n: nat, to: nat): nat
    requires n > 0
  {
    if to < n then to else n - 1
  }

  /** Taking one element out leaves the rest of the multiset. */
  lemma RemoveMultiset<T>(s: seq<T>, i: nat)
    requires i < |s|
    ensures multiset(SpliceRemove(s, i)) + multiset{s[i]} == multiset(s)
  {
    assert s == s[..i] + [s[i]] + s[i + 1..];
  }

  /** Putting an element in at `k` adds it to the multiset, places it at
      `k`, and taking it out again gives the list back. */
  lemma InsertMultiset<T>(rest: seq<T>, k: nat, x: T)
    requires k <= |rest|
    ensures multiset(SpliceInsert(rest, k, x)) == multiset(rest) + multiset{x}
    ensures SpliceInsert(rest, k, x)[k] == x
    ensures SpliceRemove(SpliceInsert(rest, k, x), k) == rest
  {
    var r := SpliceInsert(rest, k, x);
    assert r == rest[..k] + [x] + rest[k..];
    assert r[..k] == rest[..k] && r[k + 1..] == rest[k..];
    assert rest == rest[..k] + rest[k..];
  }

  /** The drag-and-drop move: the same images, the dragged one at its
      destination, and every other image in its previous relative order. */
  function MoveItem<T>(s: seq<T>, from: nat, to: nat): (r: seq<T>)
    requires from < |s|
    ensures |r| == |s|
    ensures multiset(r) == multiset(s)
    ensures r[Landing(|s|, to)] == s[from]
    ensures SpliceRemove(r, Landing(|s|, to)) == SpliceRemove(s, from)
  {
    var rest := SpliceRemove(s, from);
    var k := Landing(|s|, to);
    assert SpliceInsert(rest, to, s[from]) == SpliceInsert(rest, k, s[from]);
    RemoveMultiset(s, from);
    InsertMultiset(rest, k, s[from]);
    SpliceInsert(rest, to, s[from])
  }

  /** The name the reorder request sends for one image: the last
      `/`-separated piece, with each `%20` turned back into a space. */
  function ReorderName(imgPath: string): (name: string)
    ensures '/' !in name
    ensures !Contains(name, "%20")
    ensures ' ' !in LastPiece(imgPath, '/') ==> EncodeSpaces(name) == LastPiece(imgPath, '/')
  {
    var piece := LastPiece(imgPath, '/');
    DecodedHasNoCode(piece);
    EncodeDecodeSpaces(piece);
    DecodeSpaces(piece)
  }

  /** `fileNamesOnly`: one name per image, in the order shown, each the
      decoded last piece of its image's path. */
  function FileNamesOnly(images: seq<string>): (names: seq<string>)
    ensures |names| == |images|
    ensures forall i :: 0 <= i < |names| ==> '/' !in names[i] && !Contains(names[i], "%20")
  {
    seq(|images|, i requires 0 <= i < |images| => ReorderName(images[i]))
  }

  /** Each sent name is the decoding of its own image's stored name: encoding
      it again gives back the text after that path's last `/`, whenever that
      text holds no raw space (as every path encoded for display does). */
  lemma ReorderNamesReencode(images: seq<string>)
    ensures forall i :: 0 <= i < |images| && ' ' !in LastPiece(images[i], '/') ==>
      EncodeSpaces(FileNamesOnly(images)[i]) == LastPiece(images[i], '/')
  {
    forall i | 0 <= i < |images| && ' ' !in LastPiece(images[i], '/')
      ensures EncodeSpaces(FileNamesOnly(images)[i]) == LastPiece(images[i], '/')
    {
      assert FileNamesOnly(images)[i] == ReorderName(images[i]);
    }
  }

  /** For stored paths without a literal `%20`, the reorder request sends
      exactly the stored file names: the text after each path's last `/`. */
  lemma ReorderSendsStoredNames(images: seq<string>)
    requires forall i :: 0 <= i < |images| ==> !Contains(images[i], "%20")
    ensures forall i :: 0 <= i < |images| ==>
      FileNamesOnly(images)[i] == LastPiece(images[i], '/')
  {
    forall i | 0 <= i < |images|
      ensures FileNamesOnly(images)[i] == LastPiece(images[i], '/')
    {
      var p := images[i];
      var name := LastPiece(p, '/');
      assert FileNamesOnly(images)[i] == ReorderName(p);
      if Contains(name, "%20") {
        ContainsInSuffix(p, |p| - |name|, "%20");
        assert false;
      }
    }
  }

  /** `handleDelete`'s `filePath.split('/').pop() || ''`. */
  function DeleteFileName(filePath: string): (name: string)
    ensures '/' !in name
    ensures |name| <= |filePath| && filePath[|filePath| - |name|..] == name
    ensures |name| == |filePath| || filePath[|filePath| - |name| - 1] == '/'
  {
    LastPiece(filePath, '/')
  }

  /** The dialog's state fields. */
  class GalleryDialog {
    const kind: Kind
    const entityId: string
    var entity: Option<Item>
    var images: seq<string>
    var selectedFiles: seq<string>
    var resetUpload: bool
    var uploading: bool
    var deleting: Option<string>
    var loading: bool

    constructor (kind: Kind, entityId: string)
      ensures this.kind == kind && this.entityId == entityId
      ensures entity == None && images == [] && selectedFiles == []
      ensures !resetUpload && !uploading && deleting == None && !loading
    {
      this.kind := kind;
      this.entityId := entityId;
      entity := None;
      images := [];
      selectedFiles := [];
      resetUpload := false;
      uploading := false;
      deleting := None;
      loading := false;
    }

    /** `fetchImages`: the fetched entity and its gallery, or no change when
        the request fails; loading ends either way. */
    method FetchImages(response: Option<Item>)
      modifies this`entity, this`images, this`loading
      ensures response.Some? ==> entity == response && images == response.value.imageGallery.GetOr([])
      ensures response.None? ==> entity == old(entity) && images == old(images)
      ensures !loading
    {
      loading := true;
      if response.Some? {
        entity := response;
        images := response.value.imageGallery.GetOr([]);
      }
      loading := false;
    }

    /** `onDragEnd`: a drop outside the list changes nothing; otherwise the
        copy of `images` loses the dragged image and gets it back at the
        destination. */
    method OnDragEnd(sourceIndex: nat, destination: Option<nat>)
      requires sourceIndex < |images|
      modifies this`images
      ensures destination.None? ==> images == old(images)
      ensures destination.Some? ==> images == MoveItem(old(images), sourceIndex, destination.value)
    {
      if destination.None? {
        return;
      }
      var reordered := images;
      var moved := reordered[sourceIndex];
      reordered := SpliceRemove(reordered, sourceIndex);
      reordered := SpliceInsert(reordered, destination.value, moved);
      images := reordered;
    }

    /** `handleUpload`: nothing happens without selected files or a loaded
        entity; otherwise the upload request names the entity, a success
        clears the selection, and `uploading` ends false. */
    method HandleUpload(succeeded: bool) returns (request: Option<string>)
      modifies this`uploading, this`selectedFiles, this`resetUpload
      ensures request.Some? <==> |old(selectedFiles)| > 0 && entity.Some?
      ensures request.None? ==>
        uploading == old(uploading) && selectedFiles == old(selectedFiles) && resetUpload == old(resetUpload)
      ensures request.Some? ==> request.value == "/storage/upload?" + IdParam(kind) + "=" + entityId && !uploading
      ensures request.Some? && succeeded ==> selectedFiles == [] && resetUpload
      ensures request.Some? && !succeeded ==> selectedFiles == old(selectedFiles) && resetUpload == old(resetUpload)
    {
      if |selectedFiles| == 0 || entity.None? {
        return None;
      }
      uploading := true;
      request := Some("/storage/upload?" + IdParam(kind) + "=" + entityId);
      if succeeded {
        selectedFiles := [];
        resetUpload := true;
      }
      uploading := false;
    }

    /** `handleDelete`: the delete request names the entity and the file;
        `deleting` marks the file while the request runs. */
    method HandleDelete(filePath: string) returns (request: string)
      modifies this`deleting
      ensures request == "/storage/delete?" + IdParam(kind) + "=" + entityId + "&fileName=" + DeleteFileName(filePath)
      ensures deleting == None
    {
      deleting := Some(filePath);
      var fileName := DeleteFileName(filePath);
      request := "/storage/delete?" + IdParam(kind) + "=" + entityId + "&fileName=" + fileName;
      deleting := None;
    }

    /** `handleReorder`: sends the file names in the current order. */
    method HandleReorder() returns (orderedFileNames: seq<string>)
      modifies this`loading
      ensures orderedFileNames == FileNamesOnly(images)
      ensures !loading
    {
      loading := true;
      orderedFileNames := FileNamesOnly(images);
      loading := false;
    }
  }
}
