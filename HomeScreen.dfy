/** The television home screen of the media client: which artwork each tile
    of a home row asks the media server for, and the image URL it builds. */
module HomeScreen {
  import opened Wrappers

  // ---------------------------------------------------------------------------
  // Data model
  // ---------------------------------------------------------------------------

  /** An item id, as the text a UUID renders to (hex digits and hyphens). */
  type Id = string

  /** The server's image categories (the SDK's `ImageType`). */
  datatype ImageType =
    | Primary | Art | Backdrop | Banner | Logo | Thumb | Disc | Box
    | Screenshot | Menu | Chapter | BoxRear | Profile

  /** The kinds of item the poster logic tells apart (the SDK's `BaseItemKind`);
      every other kind behaves like `Other`. */
  datatype ItemKind = Movie | Episode | Season | Series | Other

  /** The fields of the SDK's `BaseItemDto` that the poster logic reads. */
  datatype BaseItem = BaseItem(
    id: Id,
    kind: ItemKind,
    imageTags: Option<map<ImageType, string>>,
    backdropImageTags: Option<seq<string>>,
    seriesId: Option<Id>)

  /** The tile shape a row asks `ItemPoster` for. */
  datatype Direction = Horizontal | Vertical

  /** What `ItemPoster` decides to fetch: whose artwork, and which category. */
  datatype ImageRef = ImageRef(id: Id, imageType: ImageType)

  /** What a `!!` on `null` throws. */
  datatype Exception = NullPointerException

  // ---------------------------------------------------------------------------
  // The null-or-empty extensions
  // ---------------------------------------------------------------------------

  /** Kotlin's `Collection<T>?.isNullOrEmpty()`. */
  function IsNullOrEmpty<T>(c: Option<seq<T>>): (r: bool)
    ensures r <==> c.None? || c.value == []
  {
    c.None? || |c.value| == 0
  }

  /** Kotlin's `Map<K, V>?.isNullOrEmpty()`. */
  function IsNullOrEmptyMap<K, V>(m: Option<map<K, V>>): (r: bool)
    ensures r <==> m.None? || m.value == map[]
  {
    m.None? || |m.value| == 0
  }

  /** `Collection<T>?.isNotNullOrEmpty()`: there is a collection and it holds an element. */
  function IsNotNullOrEmpty<T>(c: Option<seq<T>>): (r: bool)
    ensures r <==> c.Some? && exists x :: x in c.value
  {
    NonEmptySeqHasElement(c);
    !IsNullOrEmpty(c)
  }

  /** A collection that is neither null nor empty has an element. */
  lemma NonEmptySeqHasElement<T>(c: Option<seq<T>>)
    ensures !IsNullOrEmpty(c) ==> exists x :: x in c.value
  {
    if !IsNullOrEmpty(c) {
      assert c.value[0] in c.value;
    }
  }

  /** `Map<K, V>?.isNotNullOrEmpty()`: there is a map and it has a key. */
  function IsNotNullOrEmptyMap<K, V>(m: Option<map<K, V>>): (r: bool)
    ensures r <==> m.Some? && exists k :: k in m.value
  {
    NonEmptyMapHasKey(m);
    !IsNullOrEmptyMap(m)
  }

  /** A map that is neither null nor empty has a key. */
  lemma NonEmptyMapHasKey<K, V>(m: Option<map<K, V>>)
    ensures !IsNullOrEmptyMap(m) ==> exists k :: k in m.value
  {
  }

  // ---------------------------------------------------------------------------
  // Choosing the image
  // ---------------------------------------------------------------------------

  /** The id a vertical tile shows artwork for: an episode's, or an untagged
      season's, series when it has one; the item itself otherwise. */
  function VerticalTarget(item: BaseItem): (r: Id)
    ensures r == item.id || Some(r) == item.seriesId
    ensures r != item.id ==> item.kind == Episode || item.kind == Season
  {
    if item.kind == Episode || (item.kind == Season && IsNullOrEmptyMap(item.imageTags))
    then item.seriesId.GetOr(item.id)
    else item.id
  }

  /** Reference definition of the poster choice, as a first-match decision
      table. A horizontal tile asks for a backdrop (1) of a movie that has
      image tags and backdrop tags, (2) of any other tagged item that has no
      primary tag, (3) of an untagged episode's series, which throws when the
      episode has no series id; (4) everything else shows its own primary image.
      A vertical tile always shows a primary image. */
  function PosterImage(item: BaseItem, direction: Direction): (r: Result<ImageRef, Exception>)
    // The one failure: the `!!` on the series id of an untagged episode.
    ensures r.Failure? <==>
      direction == Horizontal && item.kind == Episode
      && IsNullOrEmptyMap(item.imageTags) && item.seriesId.None?
    // The artwork is the item's own or its series'.
    ensures r.Success? ==> r.value.id == item.id || Some(r.value.id) == item.seriesId
    // Only episodes and seasons borrow their series' artwork.
    ensures r.Success? && r.value.id != item.id ==> item.kind == Episode || item.kind == Season
    // Only primary images and, for horizontal tiles, backdrops are requested.
    ensures r.Success? && r.value.imageType != Primary ==>
      r.value.imageType == Backdrop && direction == Horizontal
  {
    match direction
    case Vertical => Success(ImageRef(VerticalTarget(item), Primary))
    case Horizontal =>
      var tagged := IsNotNullOrEmptyMap(item.imageTags);
      if tagged && item.kind == Movie && IsNotNullOrEmpty(item.backdropImageTags) then
        Success(ImageRef(item.id, Backdrop))
      else if tagged && item.kind != Movie && Primary !in item.imageTags.value then
        Success(ImageRef(item.id, Backdrop))
      else if !tagged && item.kind == Episode then
        match item.seriesId
        case Some(series) => Success(ImageRef(series, Backdrop))
        case None => Failure(NullPointerException)
      else
        Success(ImageRef(item.id, Primary))
  }

  /** The choice as `ItemPoster` makes it: start from the item's own id and a
      primary image, then overwrite either as the branches say. */
  method SelectPosterImage(item: BaseItem, direction: Direction) returns (r: Result<ImageRef, Exception>)
    ensures r == PosterImage(item, direction)
  {
    var itemId := item.id;
    var imageType := Primary;

    if direction == Horizontal {
      if IsNotNullOrEmptyMap(item.imageTags) {
        // Offline (downloaded) metadata has no image tags, so it never gets here.
        match item.kind
        case Movie =>
          if IsNotNullOrEmpty(item.backdropImageTags) {
            imageType := Backdrop;
          }
        case _ =>
          // `imageTags!!`: the guard above has shown it is not null.
          var tags := item.imageTags.value;
          if Primary !in tags.Keys {
            imageType := Backdrop;
          }
      } else {
        if item.kind == Episode {
          if item.seriesId.None? {
            return Failure(NullPointerException);
          }
          itemId := item.seriesId.value;
          imageType := Backdrop;
        }
      }
    } else {
      // Kotlin's `&&` binds tighter than `||`: every episode qualifies, a season only untagged.
      itemId :=
        if item.kind == Episode || (item.kind == Season && IsNullOrEmptyMap(item.imageTags))
        then item.seriesId.GetOr(item.id)
        else item.id;
    }

    return Success(ImageRef(itemId, imageType));
  }

  // ---------------------------------------------------------------------------
  // What the choice promises, case by case
  // ---------------------------------------------------------------------------

  /** A vertical tile always asks for a primary image and never fails. */
  lemma VerticalIsPrimary(item: BaseItem)
    ensures PosterImage(item, Vertical).Success?
    ensures PosterImage(item, Vertical).value.imageType == Primary
  {
  }

  /** A vertical tile shows the series of an episode (tagged or not) or of an
      untagged season when that series is known, and the item itself otherwise. */
  lemma VerticalTargetChoice(item: BaseItem)
    ensures var id := PosterImage(item, Vertical).value.id;
      && (item.kind == Episode && item.seriesId.Some? ==> id == item.seriesId.value)
      && (item.kind == Season && !IsNotNullOrEmptyMap(item.imageTags) && item.seriesId.Some? ==>
            id == item.seriesId.value)
      && (item.seriesId.None? ==> id == item.id)
      && (item.kind != Episode && item.kind != Season ==> id == item.id)
      && (item.kind == Season && IsNotNullOrEmptyMap(item.imageTags) ==> id == item.id)
  {
  }

  /** A tagged movie with backdrop tags shows its own backdrop. */
  lemma HorizontalMovieWithBackdrops(item: BaseItem)
    requires IsNotNullOrEmptyMap(item.imageTags) && item.kind == Movie
    requires IsNotNullOrEmpty(item.backdropImageTags)
    ensures PosterImage(item, Horizontal) == Success(ImageRef(item.id, Backdrop))
  {
  }

  /** A tagged movie without backdrop tags shows its own primary image, whether
      or not a primary tag is among its image tags. */
  lemma HorizontalMovieWithoutBackdrops(item: BaseItem)
    requires IsNotNullOrEmptyMap(item.imageTags) && item.kind == Movie
    requires !IsNotNullOrEmpty(item.backdropImageTags)
    ensures PosterImage(item, Horizontal) == Success(ImageRef(item.id, Primary))
  {
  }

  /** Any other tagged item shows its own image, a backdrop exactly when it has
      no primary tag; its image tags are never null here. */
  lemma HorizontalTaggedNonMovie(item: BaseItem)
    requires IsNotNullOrEmptyMap(item.imageTags) && item.kind != Movie
    ensures item.imageTags.Some?
    ensures PosterImage(item, Horizontal).Success?
    ensures PosterImage(item, Horizontal).value.id == item.id
    ensures PosterImage(item, Horizontal).value.imageType == Backdrop <==>
      Primary !in item.imageTags.value
    ensures PosterImage(item, Horizontal).value.imageType in {Primary, Backdrop}
  {
  }

  /** An untagged episode shows its series' backdrop, or throws when it has no
      series id; any other untagged item shows its own primary image. */
  lemma HorizontalUntagged(item: BaseItem)
    requires !IsNotNullOrEmptyMap(item.imageTags)
    ensures item.kind == Episode && item.seriesId.Some? ==>
      PosterImage(item, Horizontal) == Success(ImageRef(item.seriesId.value, Backdrop))
    ensures item.kind == Episode && item.seriesId.None? ==>
      PosterImage(item, Horizontal) == Failure(NullPointerException)
    ensures item.kind != Episode ==>
      PosterImage(item, Horizontal) == Success(ImageRef(item.id, Primary))
  {
  }

  // ---------------------------------------------------------------------------
  // The image URL
  // ---------------------------------------------------------------------------

  /** The text the SDK renders an image category to in a URL. */
  function ImageTypeName(t: ImageType): (r: string)
    ensures |r| > 0 && '/' !in r
  {
    match t
    case Primary => "Primary"
    case Art => "Art"
    case Backdrop => "Backdrop"
    case Banner => "Banner"
    case Logo => "Logo"
    case Thumb => "Thumb"
    case Disc => "Disc"
    case Box => "Box"
    case Screenshot => "Screenshot"
    case Menu => "Menu"
    case Chapter => "Chapter"
    case BoxRear => "BoxRear"
    case Profile => "Profile"
  }

  /** Every image category, in the SDK's order. */
  const ImageTypes: seq<ImageType> :=
    [Primary, Art, Backdrop, Banner, Logo, Thumb, Disc, Box,
     Screenshot, Menu, Chapter, BoxRear, Profile]

  /** The first of `candidates` whose name is `name`, if any. */
  function LookupImageType(name: string, candidates: seq<ImageType>): (r: Option<ImageType>)
    ensures r.Some? ==> r.value in candidates && ImageTypeName(r.value) == name
    ensures r.None? ==> forall t :: t in candidates ==> ImageTypeName(t) != name
  {
    if candidates == [] then None
    else if ImageTypeName(candidates[0]) == name then Some(candidates[0])
    else LookupImageType(name, candidates[1..])
  }

  /** The category a name stands for, if any. */
  function ImageTypeNamed(name: string): Option<ImageType> {
    LookupImageType(name, ImageTypes)
  }

  /** No two categories share a name. */
  lemma ImageTypeNameInjective(a: ImageType, b: ImageType)
    requires ImageTypeName(a) == ImageTypeName(b)
    ensures a == b
  {
  }

  /** Every category's name is read back as that category. */
  lemma ImageTypeNameRoundTrip(t: ImageType)
    ensures ImageTypeNamed(ImageTypeName(t)) == Some(t)
  {
    assert t in ImageTypes;
    var r := ImageTypeNamed(ImageTypeName(t));
    ImageTypeNameInjective(r.value, t);
  }

  /** The image endpoint: `{baseUrl}/items/{id}/Images/{type}`. `baseUrl` is
      the text the API client's base URL renders to. */
  function ImageUrl(baseUrl: string, id: Id, t: ImageType): (r: string)
    ensures StartsWith(r, baseUrl + "/items/" + id)
    ensures EndsWith(r, "/Images/" + ImageTypeName(t))
    ensures |r| == |baseUrl + "/items/"| + |id| + |"/Images/"| + |ImageTypeName(t)|
  {
    var url := baseUrl + "/items/" + id + "/Images/" + ImageTypeName(t);
    assert url == (baseUrl + "/items/" + id) + ("/Images/" + ImageTypeName(t));
    url
  }

  /** `s` ends with `suffix`. */
  predicate EndsWith(s: string, suffix: string) {
    |suffix| <= |s| && s[|s| - |suffix|..] == suffix
  }

  /** The position of the first `c` in `s`, or `|s|` when there is none. */
  function IndexOf(s: string, c: char): (r: nat)
    ensures r <= |s|
    ensures c !in s[..r]
    ensures r < |s| ==> s[r] == c
  {
    if s == [] then 0
    else if s[0] == c then 0
    else 1 + IndexOf(s[1..], c)
  }

  /** `s` starts with `prefix`. */
  predicate StartsWith(s: string, prefix: string) {
    |prefix| <= |s| && s[..|prefix|] == prefix
  }

  /** Splits `{baseUrl}/items/{id}/Images/{name}` into `id`, which ends at
      the first `/` after the prefix, and `name`. */
  function SplitImageUrl(baseUrl: string, url: string): Option<(Id, string)> {
    var prefix := baseUrl + "/items/";
    if StartsWith(url, prefix) then
      var path := url[|prefix|..];
      var k := IndexOf(path, '/');
      var tail := path[k..];
      if StartsWith(tail, "/Images/") then Some((path[..k], tail[|"/Images/"|..])) else None
    else None
  }

  /** Reads an image URL for `baseUrl` back into its id and category. */
  function ParseImageUrl(baseUrl: string, url: string): Option<(Id, ImageType)> {
    match SplitImageUrl(baseUrl, url)
    case None => None
    case Some((id, name)) =>
      match ImageTypeNamed(name)
      case Some(t) => Some((id, t))
      case None => None
  }

  /** In `{id}{tail}`, where `id` holds no `/` and `tail` starts with one,
      the first `/` is where `id` ends. */
  lemma FirstSlashEndsId(id: Id, tail: string)
    requires '/' !in id && |tail| > 0 && tail[0] == '/'
    ensures IndexOf(id + tail, '/') == |id|
    ensures (id + tail)[..|id|] == id && (id + tail)[|id|..] == tail
  {
    assert (id + tail)[|id|] == '/';
  }

  /** `{baseUrl}/items/{id}/Images/{name}` splits into `id` and `name` when
      `id` holds no `/`. */
  lemma SplitImageUrlComplete(baseUrl: string, id: Id, name: string)
    requires '/' !in id
    ensures SplitImageUrl(baseUrl, baseUrl + "/items/" + id + "/Images/" + name) == Some((id, name))
  {
    var prefix := baseUrl + "/items/";
    var tail := "/Images/" + name;
    var path := id + tail;
    var url := baseUrl + "/items/" + id + "/Images/" + name;
    assert url == prefix + path by {
      assert id + "/Images/" + name == path;
    }
    assert url[..|prefix|] == prefix && url[|prefix|..] == path;
    FirstSlashEndsId(id, tail);
    assert tail[..|"/Images/"|] == "/Images/";
    assert tail[|"/Images/"|..] == name;
  }

  /** Whatever splits into `id` and `name` is `{baseUrl}/items/{id}/Images/{name}`,
      and `id` holds no `/`. */
  lemma SplitImageUrlSound(baseUrl: string, url: string, id: Id, name: string)
    requires SplitImageUrl(baseUrl, url) == Some((id, name))
    ensures '/' !in id && url == baseUrl + "/items/" + id + "/Images/" + name
  {
    var prefix := baseUrl + "/items/";
    var path := url[|prefix|..];
    var k := IndexOf(path, '/');
    var tail := path[k..];
    assert tail == "/Images/" + name;
    assert path == id + tail;
    assert url == prefix + path;
    assert id + "/Images/" + name == id + tail;
  }

  /** The image URL of `id` and `t` reads back as `(id, t)` when `id` holds
      no `/`, as no UUID's text does. */
  lemma ParseImageUrlComplete(baseUrl: string, id: Id, t: ImageType)
    requires '/' !in id
    ensures ParseImageUrl(baseUrl, ImageUrl(baseUrl, id, t)) == Some((id, t))
  {
    SplitImageUrlComplete(baseUrl, id, ImageTypeName(t));
    ImageTypeNameRoundTrip(t);
  }

  /** Whatever reads back as `(id, t)` is the image URL of `id` and `t`, and
      `id` holds no `/`. */
  lemma ParseImageUrlSound(baseUrl: string, url: string, id: Id, t: ImageType)
    requires ParseImageUrl(baseUrl, url) == Some((id, t))
    ensures '/' !in id && url == ImageUrl(baseUrl, id, t)
  {
    var name := SplitImageUrl(baseUrl, url).value.1;
    assert SplitImageUrl(baseUrl, url) == Some((id, name));
    SplitImageUrlSound(baseUrl, url, id, name);
  }

  /** An URL is read back as `(id, t)` exactly when it is the image URL of
      `id` and `t` and `id` holds no `/`: the URL carries the chosen id and
      category and nothing else. */
  lemma ParseImageUrlExact(baseUrl: string, url: string, id: Id, t: ImageType)
    ensures ParseImageUrl(baseUrl, url) == Some((id, t)) <==>
      '/' !in id && url == ImageUrl(baseUrl, id, t)
  {
    if '/' !in id && url == ImageUrl(baseUrl, id, t) {
      ParseImageUrlComplete(baseUrl, id, t);
    }
    if ParseImageUrl(baseUrl, url) == Some((id, t)) {
      ParseImageUrlSound(baseUrl, url, id, t);
    }
  }

  /** Two tiles ask for the same URL exactly when they chose the same id and
      category (ids being free of `/`). */
  lemma ImageUrlInjective(baseUrl: string, id1: Id, t1: ImageType, id2: Id, t2: ImageType)
    requires '/' !in id1 && '/' !in id2
    ensures ImageUrl(baseUrl, id1, t1) == ImageUrl(baseUrl, id2, t2) <==> id1 == id2 && t1 == t2
  {
    if ImageUrl(baseUrl, id1, t1) == ImageUrl(baseUrl, id2, t2) {
      ParseImageUrlExact(baseUrl, ImageUrl(baseUrl, id1, t1), id1, t1);
      ParseImageUrlExact(baseUrl, ImageUrl(baseUrl, id2, t2), id2, t2);
    }
  }

  /** The URL of the poster a tile shows, or what choosing it throws. */
  function PosterUrl(baseUrl: string, item: BaseItem, direction: Direction): (r: Result<string, Exception>)
    ensures r.Success? <==> PosterImage(item, direction).Success?
    ensures r.Failure? ==> r.error == NullPointerException
    ensures r.Success? ==> StartsWith(r.value, baseUrl + "/items/" + PosterImage(item, direction).value.id)
    ensures r.Success? && direction == Vertical ==> EndsWith(r.value, "/Images/Primary")
  {
    match PosterImage(item, direction)
    case Success(ref) => Success(ImageUrl(baseUrl, ref.id, ref.imageType))
    case Failure(e) => Failure(e)
  }

  /** `ItemPoster`: choose the image, then build the URL handed to the image loader. */
  method ItemPoster(baseUrl: string, item: BaseItem, direction: Direction) returns (url: Result<string, Exception>)
    ensures url == PosterUrl(baseUrl, item, direction)
  {
    var choice := SelectPosterImage(item, direction);
    if choice.Failure? {
      return Failure(choice.error);
    }
    url := Success(ImageUrl(baseUrl, choice.value.id, choice.value.imageType));
  }

  /** A poster URL reads back as the id and category `PosterImage` chose,
      provided the item's ids are UUID text. */
  lemma PosterUrlCarriesChoice(baseUrl: string, item: BaseItem, direction: Direction)
    requires '/' !in item.id
    requires item.seriesId.Some? ==> '/' !in item.seriesId.value
    ensures PosterUrl(baseUrl, item, direction).Success? <==> PosterImage(item, direction).Success?
    ensures PosterUrl(baseUrl, item, direction).Success? ==>
      var ref := PosterImage(item, direction).value;
      ParseImageUrl(baseUrl, PosterUrl(baseUrl, item, direction).value) == Some((ref.id, ref.imageType))
  {
    if PosterImage(item, direction).Success? {
      var ref := PosterImage(item, direction).value;
      ParseImageUrlExact(baseUrl, ImageUrl(baseUrl, ref.id, ref.imageType), ref.id, ref.imageType);
    }
  }

  // ---------------------------------------------------------------------------
  // Home rows
  // ---------------------------------------------------------------------------

  /** A row of the home screen: the user's libraries, a curated section such
      as "continue watching", or the latest items of one view. */
  datatype HomeItem =
    | Libraries(name: string, libraries: seq<BaseItem>)
    | Section(name: string, items: seq<BaseItem>)
    | ViewItem(viewName: Option<string>, viewItems: Option<seq<BaseItem>>)

  /** The tiles of a row; a view's `null` item list shows no tiles. */
  function RowItems(row: HomeItem): (r: seq<BaseItem>)
    ensures row.ViewItem? && row.viewItems.None? ==> r == []
    ensures row.ViewItem? && row.viewItems.Some? ==> r == row.viewItems.value
  {
    match row
    case Libraries(_, libraries) => libraries
    case Section(_, items) => items
    case ViewItem(_, items) => items.GetOr([])
  }

  /** Library and section rows use horizontal tiles, view rows vertical ones. */
  function RowDirection(row: HomeItem): (d: Direction)
    ensures d == Vertical <==> row.ViewItem?
  {
    match row
    case Libraries(_, _) => Horizontal
    case Section(_, _) => Horizontal
    case ViewItem(_, _) => Vertical
  }

  /** The poster URL of every tile of a row, in order. */
  function RowPosterUrls(baseUrl: string, row: HomeItem): (urls: seq<Result<string, Exception>>)
    ensures |urls| == |RowItems(row)|
  {
    var items := RowItems(row);
    seq(|items|, i requires 0 <= i < |items| => PosterUrl(baseUrl, items[i], RowDirection(row)))
  }

  /** Every tile of a row asks for the URL of the image `PosterImage` chooses
      for its item in the row's direction, and that URL reads back as the
      chosen id and category, provided the item's ids are UUID text. */
  lemma RowTileCarriesChoice(baseUrl: string, row: HomeItem, i: nat)
    requires i < |RowItems(row)|
    requires '/' !in RowItems(row)[i].id
    requires RowItems(row)[i].seriesId.Some? ==> '/' !in RowItems(row)[i].seriesId.value
    ensures var choice := PosterImage(RowItems(row)[i], RowDirection(row));
      && (RowPosterUrls(baseUrl, row)[i].Success? <==> choice.Success?)
      && (choice.Success? ==>
            ParseImageUrl(baseUrl, RowPosterUrls(baseUrl, row)[i].value)
              == Some((choice.value.id, choice.value.imageType)))
  {
    PosterUrlCarriesChoice(baseUrl, RowItems(row)[i], RowDirection(row));
  }

  /** No tile of a view row throws, and each asks for a primary image. */
  lemma ViewRowPosters(baseUrl: string, row: HomeItem)
    requires row.ViewItem?
    ensures forall i :: 0 <= i < |RowPosterUrls(baseUrl, row)| ==>
      RowPosterUrls(baseUrl, row)[i].Success?
      && EndsWith(RowPosterUrls(baseUrl, row)[i].value, "/Images/Primary")
  {
    var urls := RowPosterUrls(baseUrl, row);
    forall i | 0 <= i < |urls|
      ensures urls[i].Success? && EndsWith(urls[i].value, "/Images/Primary")
    {
      var id := VerticalTarget(RowItems(row)[i]);
      assert urls[i] == Success(ImageUrl(baseUrl, id, Primary));
      assert ImageUrl(baseUrl, id, Primary) == (baseUrl + "/items/" + id) + "/Images/Primary";
    }
  }

  /** A tile of a library or section row throws exactly when its item is an
      untagged episode with no series id. */
  lemma HorizontalRowFailures(baseUrl: string, row: HomeItem)
    requires !row.ViewItem?
    ensures forall i :: 0 <= i < |RowPosterUrls(baseUrl, row)| ==>
      (RowPosterUrls(baseUrl, row)[i].Failure? <==>
        var item := RowItems(row)[i];
        item.kind == Episode && !IsNotNullOrEmptyMap(item.imageTags) && item.seriesId.None?)
  {
  }
}
