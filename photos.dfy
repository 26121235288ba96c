/** The search and the album grouping of the photos page,
    src/pages/photos.tsx. */
module Photos {
  import opened Text
  import Seqs

  datatype Photo = Photo(id: string, title: string, src: string, date: string, album: string)

  /** Whether the lowercased title or the lowercased album contains the
      lowercased query. */
  predicate PhotoMatches(photo: Photo, query: string)
  {
    Contains(Lower(photo.title), Lower(query)) || Contains(Lower(photo.album), Lower(query))
  }

  /** The filter's test for an already lowercased query. */
  function MatchesLowered(needle: string): Photo -> bool
  {
    (photo: Photo) => Contains(Lower(photo.title), needle) || Contains(Lower(photo.album), needle)
  }

  /** `filteredPhotos`: every photo for an empty query, otherwise the photos
      whose title or album matches, in order. */
  function FilteredPhotos(photos: seq<Photo>, query: string): (shown: seq<Photo>)
    ensures query == "" ==> shown == photos
    ensures |shown| <= |photos|
    ensures forall i :: 0 <= i < |shown| ==> shown[i] in photos && PhotoMatches(shown[i], query)
    ensures forall i :: 0 <= i < |photos| && PhotoMatches(photos[i], query) ==> photos[i] in shown
  {
    if query == "" then photos else Seqs.Filter(photos, MatchesLowered(Lower(query)))
  }

  /** The search keeps the relative order of the photos. */
  lemma FilteredPhotosKeepsOrder(a: seq<Photo>, b: seq<Photo>, query: string)
    ensures FilteredPhotos(a + b, query) == FilteredPhotos(a, query) + FilteredPhotos(b, query)
  {
    if query != "" {
      Seqs.FilterConcat(a, b, MatchesLowered(Lower(query)));
    }
  }

  /** The albums the photos belong to. */
  function Albums(photos: seq<Photo>): (albums: set<string>)
    ensures forall i :: 0 <= i < |photos| ==> photos[i].album in albums
  {
    set i | 0 <= i < |photos| :: photos[i].album
  }

  function InAlbumTest(album: string): Photo -> bool
  {
    (photo: Photo) => photo.album == album
  }

  /** The photos of one album, in order. */
  function InAlbum(photos: seq<Photo>, album: string): seq<Photo>
  {
    Seqs.Filter(photos, InAlbumTest(album))
  }

  /** An album's group holds exactly the photos of that album. */
  lemma InAlbumMembers(photos: seq<Photo>, album: string)
    ensures forall p :: p in InAlbum(photos, album) <==> p in photos && p.album == album
  {
    var group := InAlbum(photos, album);
    forall p | p in photos && p.album == album ensures p in group {
      var i :| 0 <= i < |photos| && photos[i] == p;
    }
    forall p | p in group ensures p in photos && p.album == album {
      var i :| 0 <= i < |group| && group[i] == p;
    }
  }

  /** The groups `photosByAlbum` is built from: the photos taken in order,
      each appended to the group of its album, which is opened empty the first
      time the album is met. */
  function AlbumGroups(photos: seq<Photo>): map<string, seq<Photo>>
  {
    if photos == [] then map[]
    else
      var n := |photos| - 1;
      var groups := AlbumGroups(photos[..n]);
      var album := photos[n].album;
      groups[album := (if album in groups then groups[album] else []) + [photos[n]]]
  }

  lemma AlbumsSnoc(photos: seq<Photo>, photo: Photo)
    ensures Albums(photos + [photo]) == Albums(photos) + {photo.album}
  {
    var longer := photos + [photo];
    forall a | a in Albums(longer) ensures a in Albums(photos) + {photo.album} {
      var i :| 0 <= i < |longer| && longer[i].album == a;
      if i < |photos| {
        assert photos[i].album == a;
      }
    }
    forall a | a in Albums(photos) ensures a in Albums(longer) {
      var i :| 0 <= i < |photos| && photos[i].album == a;
      assert longer[i].album == a;
    }
    assert longer[|photos|].album == photo.album;
  }

  lemma InAlbumSnoc(photos: seq<Photo>, photo: Photo, album: string)
    ensures InAlbum(photos + [photo], album) == InAlbum(photos, album) + (if photo.album == album then [photo] else [])
  {
    Seqs.FilterConcat(photos, [photo], InAlbumTest(album));
    var tail := Seqs.Filter([photo], InAlbumTest(album));
    if photo.album == album {
      assert tail == [photo];
    } else {
      assert tail == [];
    }
  }

  lemma InAbsentAlbum(photos: seq<Photo>, album: string)
    requires album !in Albums(photos)
    ensures InAlbum(photos, album) == []
  {
    Seqs.FilterKeepNone(photos, InAlbumTest(album));
  }

  /** The groups are keyed by exactly the albums that occur, and each group
      is the order-preserving subsequence of the photos of its album. */
  lemma {:induction false} AlbumGroupsAreAlbums(photos: seq<Photo>)
    ensures AlbumGroups(photos).Keys == Albums(photos)
    ensures forall a :: a in AlbumGroups(photos) ==> AlbumGroups(photos)[a] == InAlbum(photos, a)
  {
    if photos == [] {
      assert Albums(photos) == {};
    } else {
      var n := |photos| - 1;
      var init := photos[..n];
      var photo := photos[n];
      assert photos == init + [photo];
      AlbumGroupsAreAlbums(init);
      AlbumsSnoc(init, photo);
      forall a | a in AlbumGroups(photos)
        ensures AlbumGroups(photos)[a] == InAlbum(photos, a)
      {
        InAlbumSnoc(init, photo, a);
        if a == photo.album && a !in AlbumGroups(init) {
          InAbsentAlbum(init, a);
        }
      }
    }
  }

  /** Every photo is in the group of its album and in no other group. */
  lemma EachPhotoInExactlyOneGroup(photos: seq<Photo>, i: nat)
    requires i < |photos|
    ensures photos[i].album in AlbumGroups(photos)
    ensures photos[i] in AlbumGroups(photos)[photos[i].album]
    ensures forall a :: a in AlbumGroups(photos) && a != photos[i].album ==> photos[i] !in AlbumGroups(photos)[a]
  {
    AlbumGroupsAreAlbums(photos);
    InAlbumMembers(photos, photos[i].album);
    forall a | a in AlbumGroups(photos) && a != photos[i].album
      ensures photos[i] !in AlbumGroups(photos)[a]
    {
      InAlbumMembers(photos, a);
    }
  }

  /** No group is empty, and no photos make no groups. */
  lemma NoEmptyGroups(photos: seq<Photo>)
    ensures forall a :: a in AlbumGroups(photos) ==> |AlbumGroups(photos)[a]| > 0
    ensures photos == [] <==> AlbumGroups(photos) == map[]
  {
    var groups := AlbumGroups(photos);
    AlbumGroupsAreAlbums(photos);
    forall a | a in groups
      ensures |groups[a]| > 0
    {
      var i :| 0 <= i < |photos| && photos[i].album == a;
      InAlbumMembers(photos, a);
      assert photos[i] in groups[a];
    }
    if photos != [] {
      assert photos[0].album in groups;
    }
  }

  /** The `reduce` building `photosByAlbum`: each photo is pushed onto the
      array of its album, which is opened empty the first time. */
  method PhotosByAlbum(photos: seq<Photo>) returns (groups: map<string, seq<Photo>>)
    ensures groups == AlbumGroups(photos)
    ensures groups.Keys == Albums(photos)
    ensures forall a :: a in groups ==> groups[a] == InAlbum(photos, a)
  {
    groups := map[];
    var i := 0;
    while i < |photos|
      invariant 0 <= i <= |photos|
      invariant groups == AlbumGroups(photos[..i])
    {
      var photo := photos[i];
      ghost var before := groups;
      if photo.album !in groups {
        groups := groups[photo.album := []];
      }
      groups := groups[photo.album := groups[photo.album] + [photo]];
      assert groups == before[photo.album := (if photo.album in before then before[photo.album] else []) + [photo]];
      assert photos[..i + 1][..i] == photos[..i];
      i := i + 1;
    }
    assert photos[..i] == photos;
    AlbumGroupsAreAlbums(photos);
  }
}
