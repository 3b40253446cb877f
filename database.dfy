/**
 * The persistence layer over an in-memory store. Each table is a sequence
 * of rows in primary-key order; a new row takes the largest key in its
 * table plus one, as an integer primary key does in SQLite. A video's
 * `created_at` is the store's insertion clock, which only grows.
 *
 * The store operations are pure functions on `Store`; class `Database`
 * holds the tables as fields and its methods are proved to perform those
 * operations in place. Queries are functions on `Store`.
 */
module Database {
  import opened Wrappers
  import opened Models
  import MotifSchema

  datatype Store = Store(videos: seq<Video>, transcripts: seq<Transcript>, codings: seq<MotifCoding>, clock: nat)

  const EmptyStore: Store := Store([], [], [], 0)

  // ---------------------------------------------------------------------
  // Keys and table order
  // ---------------------------------------------------------------------

  function VideoPk(v: Video): nat { v.id }
  function CreatedAt(v: Video): nat { v.createdAt }
  function TranscriptPk(t: Transcript): nat { t.id }
  function TranscriptOwner(t: Transcript): nat { t.videoId }
  function CodingPk(c: MotifCoding): nat { c.id }
  function CodingOwner(c: MotifCoding): nat { c.videoId }

  /** `key` strictly increases along the table. */
  predicate Ascending<T>(rows: seq<T>, key: T -> nat)
  {
    forall i, j :: 0 <= i < j < |rows| ==> key(rows[i]) < key(rows[j])
  }

  /** The largest key in the table, 0 for an empty one. */
  function MaxKey<T>(rows: seq<T>, key: T -> nat): (m: nat)
    ensures forall i :: 0 <= i < |rows| ==> key(rows[i]) <= m
    ensures rows == [] ==> m == 0
    ensures rows != [] ==> exists i :: 0 <= i < |rows| && key(rows[i]) == m
  {
    if rows == [] then 0
    else
      var m := MaxKey(rows[1..], key);
      assert forall i :: 1 <= i < |rows| ==> rows[i] == rows[1..][i - 1];
      if key(rows[0]) > m then key(rows[0]) else m
  }

  /** The key the next inserted row receives. */
  function NextPk<T>(rows: seq<T>, key: T -> nat): (n: nat)
    ensures forall i :: 0 <= i < |rows| ==> key(rows[i]) < n
  {
    MaxKey(rows, key) + 1
  }

  /** Appending a row whose key exceeds every key keeps the table ordered. */
  lemma AppendAscending<T>(rows: seq<T>, x: T, key: T -> nat)
    requires Ascending(rows, key)
    requires forall i :: 0 <= i < |rows| ==> key(rows[i]) < key(x)
    ensures Ascending(rows + [x], key)
  {
    var r := rows + [x];
    forall i, j | 0 <= i < j < |r|
      ensures key(r[i]) < key(r[j])
    {
      assert r[i] == rows[i];
    }
  }

  /** The first position whose `key` is `k`, looking from `i`. */
  function FirstFrom<T>(rows: seq<T>, key: T -> nat, k: nat, i: nat): (r: Option<nat>)
    requires i <= |rows|
    ensures r.Some? ==> i <= r.value < |rows| && key(rows[r.value]) == k
    ensures r.Some? ==> forall j :: i <= j < r.value ==> key(rows[j]) != k
    ensures r.None? ==> forall j :: i <= j < |rows| ==> key(rows[j]) != k
    decreases |rows| - i
  {
    if i == |rows| then None
    else if key(rows[i]) == k then Some(i)
    else FirstFrom(rows, key, k, i + 1)
  }

  function First<T>(rows: seq<T>, key: T -> nat, k: nat): Option<nat>
  {
    FirstFrom(rows, key, k, 0)
  }

  /** The value of the first row whose `key` is `k`. */
  function FirstRow<T>(rows: seq<T>, key: T -> nat, k: nat): (r: Option<T>)
    ensures r.Some? ==> r.value in rows && key(r.value) == k
    ensures r.None? <==> forall j :: 0 <= j < |rows| ==> key(rows[j]) != k
  {
    var i := First(rows, key, k);
    if i.Some? then Some(rows[i.value]) else None
  }

  /** The rows whose `owner` is not `pk`, in order. */
  function Without<T(==,!new)>(rows: seq<T>, owner: T -> nat, pk: nat): (r: seq<T>)
    ensures forall x :: x in r <==> x in rows && owner(x) != pk
  {
    if rows == [] then []
    else if owner(rows[0]) == pk then Without(rows[1..], owner, pk)
    else [rows[0]] + Without(rows[1..], owner, pk)
  }

  lemma {:induction false} WithoutAscending<T(!new)>(rows: seq<T>, owner: T -> nat, pk: nat, key: T -> nat)
    requires Ascending(rows, key)
    ensures Ascending(Without(rows, owner, pk), key)
  {
    if rows != [] {
      var tail := rows[1..];
      assert Ascending(tail, key) by {
        forall i, j | 0 <= i < j < |tail| ensures key(tail[i]) < key(tail[j]) {
          assert tail[i] == rows[i + 1] && tail[j] == rows[j + 1];
        }
      }
      WithoutAscending(tail, owner, pk, key);
      var w := Without(tail, owner, pk);
      if owner(rows[0]) != pk {
        forall k | 0 <= k < |w| ensures key(rows[0]) < key(w[k]) {
          assert w[k] in tail;
          var j :| 0 <= j < |tail| && tail[j] == w[k];
          assert tail[j] == rows[j + 1];
        }
        var r := [rows[0]] + w;
        forall i, j | 0 <= i < j < |r| ensures key(r[i]) < key(r[j]) {
          assert r[j] == w[j - 1];
          if i > 0 {
            assert r[i] == w[i - 1];
          }
        }
      }
    }
  }

  /** Distinct positions of an ordered table hold distinct keys. */
  lemma AscendingInjective<T>(rows: seq<T>, key: T -> nat, a: nat, b: nat)
    requires Ascending(rows, key) && a < |rows| && b < |rows| && a != b
    ensures key(rows[a]) != key(rows[b])
  {
    if a < b {
      assert key(rows[a]) < key(rows[b]);
    } else {
      assert key(rows[b]) < key(rows[a]);
    }
  }

  /** Removing one position keeps the order of the rest. */
  function RemoveAt<T>(rows: seq<T>, i: nat): (r: seq<T>)
    requires i < |rows|
    ensures |r| == |rows| - 1
    ensures forall k :: 0 <= k < i ==> r[k] == rows[k]
    ensures forall k :: i <= k < |r| ==> r[k] == rows[k + 1]
  {
    rows[..i] + rows[i + 1..]
  }

  lemma RemoveAtAscending<T>(rows: seq<T>, i: nat, key: T -> nat)
    requires i < |rows| && Ascending(rows, key)
    ensures Ascending(RemoveAt(rows, i), key)
  {
    var r := RemoveAt(rows, i);
    forall a, b | 0 <= a < b < |r| ensures key(r[a]) < key(r[b]) {
      var a' := if a < i then a else a + 1;
      var b' := if b < i then b else b + 1;
      assert r[a] == rows[a'] && r[b] == rows[b'];
    }
  }

  // ---------------------------------------------------------------------
  // The store's invariant
  // ---------------------------------------------------------------------

  /** No two videos share a YouTube id. */
  predicate UniqueVideoIds(vs: seq<Video>)
  {
    forall i, j :: 0 <= i < j < |vs| ==> vs[i].videoId != vs[j].videoId
  }

  /**
   * Primary keys increase along every table (so they are unique), YouTube
   * ids are unique, and videos were created at increasing clock values
   * below the current one.
   */
  predicate Consistent(s: Store)
  {
    && Ascending(s.videos, VideoPk)
    && Ascending(s.videos, CreatedAt)
    && (forall i :: 0 <= i < |s.videos| ==> s.videos[i].createdAt < s.clock)
    && UniqueVideoIds(s.videos)
    && Ascending(s.transcripts, TranscriptPk)
    && Ascending(s.codings, CodingPk)
  }

  // ---------------------------------------------------------------------
  // Videos: create and look up
  // ---------------------------------------------------------------------

  /** The keys of a `create_video` call. */
  datatype VideoData = VideoData(
    videoId: string,
    url: string,
    title: Option<string>,
    channelName: Option<string>,
    channelId: Option<string>,
    description: Option<string>,
    publishedAt: Option<string>,
    duration: Option<nat>,
    language: Option<string>,
    viewCount: Option<nat>,
    likeCount: Option<nat>,
    commentCount: Option<nat>,
    status: Option<string>,
    hasCaptions: Option<bool>,
    errorMessage: Option<string>)

  /** The position of the video with a YouTube id. */
  function VideoIndexFrom(vs: seq<Video>, videoId: string, i: nat): (r: Option<nat>)
    requires i <= |vs|
    ensures r.Some? ==> i <= r.value < |vs| && vs[r.value].videoId == videoId
    ensures r.Some? ==> forall j :: i <= j < r.value ==> vs[j].videoId != videoId
    ensures r.None? ==> forall j :: i <= j < |vs| ==> vs[j].videoId != videoId
    decreases |vs| - i
  {
    if i == |vs| then None
    else if vs[i].videoId == videoId then Some(i)
    else VideoIndexFrom(vs, videoId, i + 1)
  }

  function VideoIndex(vs: seq<Video>, videoId: string): Option<nat>
  {
    VideoIndexFrom(vs, videoId, 0)
  }

  /** `get_video_by_id`. */
  function VideoById(s: Store, videoId: string): (r: Option<Video>)
    ensures r.Some? ==> r.value in s.videos && r.value.videoId == videoId
    ensures r.None? <==> forall j :: 0 <= j < |s.videos| ==> s.videos[j].videoId != videoId
  {
    var i := VideoIndex(s.videos, videoId);
    if i.Some? then Some(s.videos[i.value]) else None
  }

  /** `get_video_by_pk`: the video with that primary key, or `None` when there is none. */
  function VideoByPk(s: Store, pk: nat): (r: Option<Video>)
    ensures r.Some? ==> r.value in s.videos && r.value.id == pk
    ensures r.None? <==> forall j :: 0 <= j < |s.videos| ==> s.videos[j].id != pk
  {
    FirstRow(s.videos, VideoPk, pk)
  }

  /** The row an insert of `d` creates: the next key, the column defaults, the current clock. */
  function NewVideo(s: Store, d: VideoData): (v: Video)
    ensures forall i :: 0 <= i < |s.videos| ==> s.videos[i].id < v.id
    ensures v.status == Some(StatusOnInsert(d.status)) && v.hasCaptions == Some(HasCaptionsOnInsert(d.hasCaptions))
  {
    Video(NextPk(s.videos, VideoPk), d.videoId, d.url, d.title, d.channelName, d.channelId, d.description,
      d.publishedAt, d.duration, d.language, d.viewCount, d.likeCount, d.commentCount,
      Some(StatusOnInsert(d.status)), Some(HasCaptionsOnInsert(d.hasCaptions)), d.errorMessage, s.clock)
  }

  /** Whether `create_video` would break the unique YouTube id. */
  predicate Duplicate(s: Store, videoId: string)
  {
    VideoById(s, videoId).Some?
  }

  /** `create_video` on a fresh YouTube id. */
  function AddVideo(s: Store, d: VideoData): Store
  {
    s.(videos := s.videos + [NewVideo(s, d)], clock := s.clock + 1)
  }

  lemma AddVideoConsistent(s: Store, d: VideoData)
    requires Consistent(s) && !Duplicate(s, d.videoId)
    ensures Consistent(AddVideo(s, d))
  {
    var v := NewVideo(s, d);
    AppendAscending(s.videos, v, VideoPk);
    AppendAscending(s.videos, v, CreatedAt);
  }

  /**
   * After `create_video(d)` the lookup by `d.videoId` returns the new row
   * with its defaults, and every other lookup is as before.
   */
  lemma CreateThenGet(s: Store, d: VideoData, other: string)
    requires Consistent(s) && !Duplicate(s, d.videoId)
    ensures VideoById(AddVideo(s, d), d.videoId) == Some(NewVideo(s, d))
    ensures other != d.videoId ==> VideoById(AddVideo(s, d), other) == VideoById(s, other)
  {
    var vs := AddVideo(s, d).videos;
    assert forall j :: 0 <= j < |s.videos| ==> vs[j] == s.videos[j];
    assert vs[|s.videos|].videoId == d.videoId;
    var i := VideoIndex(vs, d.videoId);
    assert i == Some(|s.videos|);
    if other != d.videoId {
      var a, b := VideoIndex(vs, other), VideoIndex(s.videos, other);
      if b.Some? {
        assert a == b;
      } else {
        assert a.None?;
      }
    }
  }

  // ---------------------------------------------------------------------
  // Videos: update
  // ---------------------------------------------------------------------

  /**
   * The non-key columns of `videos`: the keys an updates dictionary is
   * modelled with. `update_video` itself assigns any attribute name it is
   * given; the keys `id`, `video_id`, `url`, the two timestamps and non-column
   * names are not modelled.
   */
  datatype Column =
    | TitleColumn | ChannelNameColumn | ChannelIdColumn | DescriptionColumn | PublishedAtColumn
    | DurationColumn | LanguageColumn | ViewCountColumn | LikeCountColumn | CommentCountColumn
    | StatusColumn | HasCaptionsColumn | ErrorMessageColumn

  datatype ColumnValue = TextValue(text: Option<string>) | CountValue(count: Option<nat>) | FlagValue(flag: Option<bool>)

  /** One key and value of an updates dictionary. */
  datatype Update =
    | SetTitle(text: Option<string>)
    | SetChannelName(text: Option<string>)
    | SetChannelId(text: Option<string>)
    | SetDescription(text: Option<string>)
    | SetPublishedAt(text: Option<string>)
    | SetDuration(count: Option<nat>)
    | SetLanguage(text: Option<string>)
    | SetViewCount(count: Option<nat>)
    | SetLikeCount(count: Option<nat>)
    | SetCommentCount(count: Option<nat>)
    | SetStatus(text: Option<string>)
    | SetHasCaptions(flag: Option<bool>)
    | SetErrorMessage(text: Option<string>)

  function ColumnOf(u: Update): Column
  {
    match u
    case SetTitle(_) => TitleColumn
    case SetChannelName(_) => ChannelNameColumn
    case SetChannelId(_) => ChannelIdColumn
    case SetDescription(_) => DescriptionColumn
    case SetPublishedAt(_) => PublishedAtColumn
    case SetDuration(_) => DurationColumn
    case SetLanguage(_) => LanguageColumn
    case SetViewCount(_) => ViewCountColumn
    case SetLikeCount(_) => LikeCountColumn
    case SetCommentCount(_) => CommentCountColumn
    case SetStatus(_) => StatusColumn
    case SetHasCaptions(_) => HasCaptionsColumn
    case SetErrorMessage(_) => ErrorMessageColumn
  }

  function ValueOf(u: Update): ColumnValue
  {
    match u
    case SetDuration(n) => CountValue(n)
    case SetViewCount(n) => CountValue(n)
    case SetLikeCount(n) => CountValue(n)
    case SetCommentCount(n) => CountValue(n)
    case SetHasCaptions(b) => FlagValue(b)
    case _ => TextValue(u.text)
  }

  /** A column of a row. */
  function Get(v: Video, c: Column): ColumnValue
  {
    match c
    case TitleColumn => TextValue(v.title)
    case ChannelNameColumn => TextValue(v.channelName)
    case ChannelIdColumn => TextValue(v.channelId)
    case DescriptionColumn => TextValue(v.description)
    case PublishedAtColumn => TextValue(v.publishedAt)
    case DurationColumn => CountValue(v.duration)
    case LanguageColumn => TextValue(v.language)
    case ViewCountColumn => CountValue(v.viewCount)
    case LikeCountColumn => CountValue(v.likeCount)
    case CommentCountColumn => CountValue(v.commentCount)
    case StatusColumn => TextValue(v.status)
    case HasCaptionsColumn => FlagValue(v.hasCaptions)
    case ErrorMessageColumn => TextValue(v.errorMessage)
  }

  /** `setattr` of one column. */
  function Apply(v: Video, u: Update): Video
  {
    match u
    case SetTitle(x) => v.(title := x)
    case SetChannelName(x) => v.(channelName := x)
    case SetChannelId(x) => v.(channelId := x)
    case SetDescription(x) => v.(description := x)
    case SetPublishedAt(x) => v.(publishedAt := x)
    case SetDuration(x) => v.(duration := x)
    case SetLanguage(x) => v.(language := x)
    case SetViewCount(x) => v.(viewCount := x)
    case SetLikeCount(x) => v.(likeCount := x)
    case SetCommentCount(x) => v.(commentCount := x)
    case SetStatus(x) => v.(status := x)
    case SetHasCaptions(x) => v.(hasCaptions := x)
    case SetErrorMessage(x) => v.(errorMessage := x)
  }

  /** The keys and the creation time are never assigned. */
  predicate SameKeys(a: Video, b: Video)
  {
    a.id == b.id && a.videoId == b.videoId && a.url == b.url && a.createdAt == b.createdAt
  }

  /** One `setattr` sets its own column and leaves every other column and the keys alone. */
  lemma ApplyGet(v: Video, u: Update, c: Column)
    ensures Get(Apply(v, u), c) == if c == ColumnOf(u) then ValueOf(u) else Get(v, c)
    ensures SameKeys(Apply(v, u), v)
  {
  }

  /** The updates applied in order, as the loop over the dictionary does. */
  function ApplyAll(v: Video, us: seq<Update>): Video
  {
    if us == [] then v else Apply(ApplyAll(v, us[..|us| - 1]), us[|us| - 1])
  }

  /** The value the last update of column `c` assigns, or `d` when none does. */
  function LastValue(us: seq<Update>, c: Column, d: ColumnValue): ColumnValue
  {
    if us == [] then d
    else if ColumnOf(us[|us| - 1]) == c then ValueOf(us[|us| - 1])
    else LastValue(us[..|us| - 1], c, d)
  }

  /** A column mentioned by no update keeps its value. */
  predicate Untouched(us: seq<Update>, c: Column)
  {
    forall k :: 0 <= k < |us| ==> ColumnOf(us[k]) != c
  }

  /**
   * After the updates every column holds the last value assigned to it,
   * a column no update names is unchanged, and the keys stay.
   */
  lemma {:induction false} ApplyAllColumns(v: Video, us: seq<Update>, c: Column)
    ensures Get(ApplyAll(v, us), c) == LastValue(us, c, Get(v, c))
    ensures Untouched(us, c) ==> Get(ApplyAll(v, us), c) == Get(v, c)
    ensures SameKeys(ApplyAll(v, us), v)
  {
    if us != [] {
      var init := us[..|us| - 1];
      ApplyAllColumns(v, init, c);
      ApplyGet(ApplyAll(v, init), us[|us| - 1], c);
      if Untouched(us, c) {
        assert Untouched(init, c) by {
          forall k | 0 <= k < |init| ensures ColumnOf(init[k]) != c {
            assert init[k] == us[k];
          }
        }
      }
    }
  }

  /** `update_video(videoId, us)`: the matching video receives the updates; with none, nothing changes. */
  function UpdateVideoIn(s: Store, videoId: string, us: seq<Update>): Store
  {
    var i := VideoIndex(s.videos, videoId);
    if i.None? then s else s.(videos := s.videos[i.value := ApplyAll(s.videos[i.value], us)])
  }

  /** Key columns and creation times are the same position by position. */
  predicate SameVideoKeys(a: seq<Video>, b: seq<Video>)
  {
    |a| == |b| && forall i :: 0 <= i < |a| ==> SameKeys(a[i], b[i])
  }

  lemma SameVideoKeysConsistent(s: Store, t: Store)
    requires Consistent(s) && SameVideoKeys(s.videos, t.videos) && s.clock == t.clock
    requires s.transcripts == t.transcripts && s.codings == t.codings
    ensures Consistent(t)
  {
    assert forall i :: 0 <= i < |s.videos| ==> VideoPk(t.videos[i]) == VideoPk(s.videos[i]) && CreatedAt(t.videos[i]) == CreatedAt(s.videos[i]);
  }

  /**
   * `update_video` changes only the matching video, and only in the
   * columns its updates name; a missing video leaves the store as it was.
   */
  lemma UpdateVideoEffect(s: Store, videoId: string, us: seq<Update>)
    ensures VideoById(s, videoId).None? ==> UpdateVideoIn(s, videoId, us) == s
    ensures var t := UpdateVideoIn(s, videoId, us);
      && t.transcripts == s.transcripts && t.codings == s.codings && t.clock == s.clock
      && SameVideoKeys(s.videos, t.videos)
      && forall k :: 0 <= k < |s.videos| && s.videos[k].videoId != videoId ==> t.videos[k] == s.videos[k]
    ensures VideoById(s, videoId).Some? ==>
      VideoById(UpdateVideoIn(s, videoId, us), videoId) == Some(ApplyAll(VideoById(s, videoId).value, us))
  {
    var i := VideoIndex(s.videos, videoId);
    if i.Some? {
      var t := UpdateVideoIn(s, videoId, us);
      ApplyAllColumns(s.videos[i.value], us, TitleColumn);
      assert VideoIndex(t.videos, videoId) == i by {
        assert forall j :: 0 <= j < |t.videos| ==> t.videos[j].videoId == s.videos[j].videoId;
      }
    }
  }

  // ---------------------------------------------------------------------
  // Videos: filtered listing
  // ---------------------------------------------------------------------

  /** The two optional filters of `get_all_videos`; an empty status means no status filter. */
  predicate MatchesFilter(v: Video, status: Option<string>, hasCaptions: Option<bool>)
  {
    && (status.None? || status.value == [] || v.status == status)
    && (hasCaptions.None? || v.hasCaptions == hasCaptions)
  }

  function Matching(vs: seq<Video>, status: Option<string>, hasCaptions: Option<bool>): (r: seq<Video>)
    ensures forall x :: x in r <==> x in vs && MatchesFilter(x, status, hasCaptions)
    ensures |r| <= |vs|
  {
    if vs == [] then []
    else if MatchesFilter(vs[0], status, hasCaptions) then [vs[0]] + Matching(vs[1..], status, hasCaptions)
    else Matching(vs[1..], status, hasCaptions)
  }

  lemma {:induction false} MatchingAscending(vs: seq<Video>, status: Option<string>, hasCaptions: Option<bool>)
    requires Ascending(vs, CreatedAt)
    ensures Ascending(Matching(vs, status, hasCaptions), CreatedAt)
  {
    if vs != [] {
      var tail := vs[1..];
      assert Ascending(tail, CreatedAt) by {
        forall i, j | 0 <= i < j < |tail| ensures CreatedAt(tail[i]) < CreatedAt(tail[j]) {
          assert tail[i] == vs[i + 1] && tail[j] == vs[j + 1];
        }
      }
      MatchingAscending(tail, status, hasCaptions);
      var w := Matching(tail, status, hasCaptions);
      if MatchesFilter(vs[0], status, hasCaptions) {
        forall k | 0 <= k < |w| ensures vs[0].createdAt < w[k].createdAt {
          assert w[k] in tail;
          var j :| 0 <= j < |tail| && tail[j] == w[k];
          assert tail[j] == vs[j + 1];
          assert CreatedAt(vs[0]) < CreatedAt(vs[j + 1]);
        }
        var r := [vs[0]] + w;
        forall i, j | 0 <= i < j < |r| ensures CreatedAt(r[i]) < CreatedAt(r[j]) {
          assert r[j] == w[j - 1];
          if i > 0 {
            assert r[i] == w[i - 1];
          }
        }
      }
    }
  }

  function Reverse<T(!new)>(xs: seq<T>): (r: seq<T>)
    ensures |r| == |xs|
    ensures forall i :: 0 <= i < |xs| ==> r[i] == xs[|xs| - 1 - i]
    ensures forall x :: x in r <==> x in xs
  {
    if xs == [] then [] else Reverse(xs[1..]) + [xs[0]]
  }

  /** `get_all_videos(status, has_captions)`: the matching videos, newest first. */
  function AllVideos(s: Store, status: Option<string>, hasCaptions: Option<bool>): (r: seq<Video>)
    ensures forall v :: v in r <==> v in s.videos && MatchesFilter(v, status, hasCaptions)
    ensures |r| <= |s.videos|
  {
    Reverse(Matching(s.videos, status, hasCaptions))
  }

  /** The listing holds exactly the videos that pass both filters, in strictly decreasing creation time. */
  lemma AllVideosExact(s: Store, status: Option<string>, hasCaptions: Option<bool>)
    requires Consistent(s)
    ensures forall v :: v in AllVideos(s, status, hasCaptions) <==> v in s.videos && MatchesFilter(v, status, hasCaptions)
    ensures var r := AllVideos(s, status, hasCaptions);
      forall i, j :: 0 <= i < j < |r| ==> r[i].createdAt > r[j].createdAt
  {
    var m := Matching(s.videos, status, hasCaptions);
    MatchingAscending(s.videos, status, hasCaptions);
    var r := Reverse(m);
    forall i, j | 0 <= i < j < |r| ensures r[i].createdAt > r[j].createdAt {
      assert CreatedAt(m[|m| - 1 - j]) < CreatedAt(m[|m| - 1 - i]);
    }
  }

  // ---------------------------------------------------------------------
  // Videos: delete with cascade
  // ---------------------------------------------------------------------

  /** A coding that pointed at a removed transcript loses the link. */
  function Unlink(c: MotifCoding, gone: set<nat>): (r: MotifCoding)
    ensures r.id == c.id && r.videoId == c.videoId
    ensures r.transcriptId.Some? ==> r.transcriptId.value !in gone
  {
    if c.transcriptId.Some? && c.transcriptId.value in gone then c.(transcriptId := None) else c
  }

  function UnlinkAll(cs: seq<MotifCoding>, gone: set<nat>): (r: seq<MotifCoding>)
    ensures |r| == |cs|
    ensures forall i :: 0 <= i < |cs| ==> r[i] == Unlink(cs[i], gone)
  {
    seq(|cs|, i requires 0 <= i < |cs| => Unlink(cs[i], gone))
  }

  /** The keys of the transcripts a video owns. */
  function OwnedTranscripts(s: Store, pk: nat): set<nat>
  {
    set t | t in s.transcripts && t.videoId == pk :: t.id
  }

  /**
   * `delete_video`: the video goes, with every transcript and coding that
   * belongs to it; codings of other videos that pointed at one of those
   * transcripts lose the link.
   */
  function DeleteVideoIn(s: Store, videoId: string): (r: (Store, bool))
  {
    var i := VideoIndex(s.videos, videoId);
    if i.None? then (s, false)
    else
      var pk := s.videos[i.value].id;
      var gone := OwnedTranscripts(s, pk);
      (s.(videos := RemoveAt(s.videos, i.value),
          transcripts := Without(s.transcripts, TranscriptOwner, pk),
          codings := UnlinkAll(Without(s.codings, CodingOwner, pk), gone)), true)
  }

  lemma DeleteVideoConsistent(s: Store, videoId: string)
    requires Consistent(s)
    ensures Consistent(DeleteVideoIn(s, videoId).0)
  {
    var i := VideoIndex(s.videos, videoId);
    if i.Some? {
      var pk := s.videos[i.value].id;
      var t := DeleteVideoIn(s, videoId).0;
      RemoveAtAscending(s.videos, i.value, VideoPk);
      RemoveAtAscending(s.videos, i.value, CreatedAt);
      WithoutAscending(s.transcripts, TranscriptOwner, pk, TranscriptPk);
      WithoutAscending(s.codings, CodingOwner, pk, CodingPk);
      var kept := Without(s.codings, CodingOwner, pk);
      assert forall k :: 0 <= k < |kept| ==> CodingPk(t.codings[k]) == CodingPk(kept[k]);
      var r := RemoveAt(s.videos, i.value);
      assert UniqueVideoIds(r) by {
        forall a, b | 0 <= a < b < |r| ensures r[a].videoId != r[b].videoId {
          var a' := if a < i.value then a else a + 1;
          var b' := if b < i.value then b else b + 1;
          assert r[a] == s.videos[a'] && r[b] == s.videos[b'];
        }
      }
      assert forall k :: 0 <= k < |r| ==> r[k] in s.videos;
    }
  }

  /**
   * `delete_video` reports whether the video existed. Afterwards no video
   * has that YouTube id, nothing remains that belonged to it, and every
   * other video, transcript and coding is still there (a coding only
   * losing its link to a removed transcript).
   */
  lemma DeleteVideoEffect(s: Store, videoId: string)
    requires Consistent(s)
    ensures var (t, deleted) := DeleteVideoIn(s, videoId);
      && (deleted <==> Duplicate(s, videoId))
      && VideoById(t, videoId).None?
      && (!deleted ==> t == s)
      && (forall v :: v in s.videos && v.videoId != videoId ==> v in t.videos)
      && (forall v :: v in t.videos ==> v in s.videos)
  {
    var i := VideoIndex(s.videos, videoId);
    if i.Some? {
      RemoveVideoAt(s.videos, i.value, videoId);
    }
  }

  /** Removing the one video with a YouTube id keeps every other video and leaves none with that id. */
  lemma RemoveVideoAt(vs: seq<Video>, i: nat, videoId: string)
    requires i < |vs| && vs[i].videoId == videoId && UniqueVideoIds(vs)
    ensures var r := RemoveAt(vs, i);
      && (forall v :: v in vs && v.videoId != videoId ==> v in r)
      && (forall v :: v in r ==> v in vs)
      && (forall j :: 0 <= j < |r| ==> r[j].videoId != videoId)
  {
    var r := RemoveAt(vs, i);
    forall v | v in vs && v.videoId != videoId ensures v in r {
      var k :| 0 <= k < |vs| && vs[k] == v;
      if k < i {
        assert r[k] == v;
      } else {
        assert k != i;
        assert r[k - 1] == v;
      }
    }
    forall j | 0 <= j < |r| ensures r[j].videoId != videoId {
      var j' := if j < i then j else j + 1;
      assert r[j] == vs[j'];
    }
    assert forall k :: 0 <= k < |r| ==> r[k] in vs;
  }

  /** After deleting a video nothing refers to it: no transcript or coding of its key remains. */
  lemma DeleteVideoCascade(s: Store, videoId: string)
    requires VideoById(s, videoId).Some?
    ensures var pk := VideoById(s, videoId).value.id;
      var t := DeleteVideoIn(s, videoId).0;
      && (forall x :: x in t.transcripts <==> x in s.transcripts && x.videoId != pk)
      && (forall k :: 0 <= k < |t.codings| ==> t.codings[k].videoId != pk)
      && (forall k :: 0 <= k < |t.codings| && t.codings[k].transcriptId.Some? ==>
            t.codings[k].transcriptId.value !in OwnedTranscripts(s, pk))
      && (forall c :: c in s.codings && c.videoId != pk ==> Unlink(c, OwnedTranscripts(s, pk)) in t.codings)
  {
    var pk := VideoById(s, videoId).value.id;
    var kept := Without(s.codings, CodingOwner, pk);
    var gone := OwnedTranscripts(s, pk);
    var t := DeleteVideoIn(s, videoId).0;
    assert t.codings == UnlinkAll(kept, gone);
    forall k | 0 <= k < |t.codings| ensures t.codings[k].videoId != pk {
      assert kept[k] in kept;
    }
    forall c | c in s.codings && c.videoId != pk ensures Unlink(c, gone) in t.codings {
      assert c in kept;
      var k :| 0 <= k < |kept| && kept[k] == c;
      assert t.codings[k] == Unlink(c, gone);
    }
  }

  // ---------------------------------------------------------------------
  // Transcripts and codings
  // ---------------------------------------------------------------------

  /** The keys of a `create_transcript` call besides the video. */
  datatype TranscriptData = TranscriptData(
    language: Option<string>, isAutoGenerated: Option<bool>, rawText: Option<string>, wordCount: Option<nat>)

  function NewTranscript(s: Store, videoPk: nat, d: TranscriptData): (t: Transcript)
    ensures forall i :: 0 <= i < |s.transcripts| ==> s.transcripts[i].id < t.id
  {
    Transcript(NextPk(s.transcripts, TranscriptPk), videoPk, d.language, d.isAutoGenerated, d.rawText, d.wordCount)
  }

  /** The status change a new transcript causes on its video. */
  function MarkCaptioned(v: Video): (r: Video)
    ensures SameKeys(r, v)
    ensures r.hasCaptions == Some(true) && r.status == Some(Completed)
  {
    v.(hasCaptions := Some(true), status := Some(Completed))
  }

  /**
   * `create_transcript(pk, d)`: the transcript is added whether or not a
   * video has key `pk`; if one does, it is marked as captioned and completed.
   */
  function AddTranscript(s: Store, videoPk: nat, d: TranscriptData): Store
  {
    var j := First(s.videos, VideoPk, videoPk);
    s.(transcripts := s.transcripts + [NewTranscript(s, videoPk, d)],
       videos := if j.Some? then s.videos[j.value := MarkCaptioned(s.videos[j.value])] else s.videos)
  }

  lemma AddTranscriptConsistent(s: Store, videoPk: nat, d: TranscriptData)
    requires Consistent(s)
    ensures Consistent(AddTranscript(s, videoPk, d))
  {
    AppendAscending(s.transcripts, NewTranscript(s, videoPk, d), TranscriptPk);
    var t := AddTranscript(s, videoPk, d);
    var mid := s.(transcripts := t.transcripts);
    SameVideoKeysConsistent(mid, t);
  }

  /**
   * `create_transcript` adds exactly one transcript, owned by `pk`; the
   * video with key `pk`, if any, becomes completed and captioned, every
   * other video and every coding stays as it was.
   */
  lemma AddTranscriptEffect(s: Store, videoPk: nat, d: TranscriptData)
    requires Consistent(s)
    ensures var t := AddTranscript(s, videoPk, d);
      && t.transcripts == s.transcripts + [NewTranscript(s, videoPk, d)]
      && t.codings == s.codings && t.clock == s.clock && |t.videos| == |s.videos|
      && (forall k :: 0 <= k < |s.videos| && s.videos[k].id != videoPk ==> t.videos[k] == s.videos[k])
      && (forall k :: 0 <= k < |s.videos| && s.videos[k].id == videoPk ==> t.videos[k] == MarkCaptioned(s.videos[k]))
  {
    var j := First(s.videos, VideoPk, videoPk);
    if j.Some? {
      forall k | 0 <= k < |s.videos| && k != j.value ensures s.videos[k].id != videoPk {
        AscendingInjective(s.videos, VideoPk, k, j.value);
      }
    }
  }

  /** `get_transcript(pk)`: the first transcript the video owns, or `None` when it owns none. */
  function TranscriptFor(s: Store, videoPk: nat): (r: Option<Transcript>)
    ensures r.Some? ==> r.value in s.transcripts && r.value.videoId == videoPk
    ensures r.None? <==> forall j :: 0 <= j < |s.transcripts| ==> s.transcripts[j].videoId != videoPk
  {
    FirstRow(s.transcripts, TranscriptOwner, videoPk)
  }

  /** The keys of a `create_motif_coding` call besides the two links. */
  datatype CodingData = CodingData(
    codingResults: Option<MotifSchema.MotifCoding>, modelUsed: Option<string>, tokensUsed: Option<nat>,
    processingTime: Option<nat>)

  function NewCoding(s: Store, videoPk: nat, transcriptPk: nat, d: CodingData): (c: MotifCoding)
    ensures forall i :: 0 <= i < |s.codings| ==> s.codings[i].id < c.id
  {
    MotifCoding(NextPk(s.codings, CodingPk), videoPk, Some(transcriptPk), d.codingResults, d.modelUsed,
      d.tokensUsed, d.processingTime)
  }

  /** `create_motif_coding`: one more row, whatever codings the video already has. */
  function AddCoding(s: Store, videoPk: nat, transcriptPk: nat, d: CodingData): Store
  {
    s.(codings := s.codings + [NewCoding(s, videoPk, transcriptPk, d)])
  }

  lemma AddCodingConsistent(s: Store, videoPk: nat, transcriptPk: nat, d: CodingData)
    requires Consistent(s)
    ensures Consistent(AddCoding(s, videoPk, transcriptPk, d))
  {
    AppendAscending(s.codings, NewCoding(s, videoPk, transcriptPk, d), CodingPk);
  }

  /** `get_motif_coding(pk)`: the first coding the video owns, or `None` when it owns none. */
  function CodingFor(s: Store, videoPk: nat): (r: Option<MotifCoding>)
    ensures r.Some? ==> r.value in s.codings && r.value.videoId == videoPk
    ensures r.None? <==> forall j :: 0 <= j < |s.codings| ==> s.codings[j].videoId != videoPk
  {
    FirstRow(s.codings, CodingOwner, videoPk)
  }

  /** Appending a row changes a lookup only when no earlier row has the key. */
  lemma FirstRowAppend<T>(rows: seq<T>, x: T, key: T -> nat, k: nat)
    ensures FirstRow(rows + [x], key, k)
      == if FirstRow(rows, key, k).Some? then FirstRow(rows, key, k) else if key(x) == k then Some(x) else None
  {
    var r := rows + [x];
    assert forall j :: 0 <= j < |rows| ==> r[j] == rows[j];
    var a, b := First(r, key, k), First(rows, key, k);
    if b.Some? {
      assert a == b;
    } else if key(x) == k {
      assert r[|rows|] == x;
      assert a == Some(|rows|);
    } else {
      assert a.None?;
    }
  }

  /** `get_transcript` after `create_transcript`: the new row, unless the video already had one. */
  lemma TranscriptAfterCreate(s: Store, videoPk: nat, d: TranscriptData)
    ensures TranscriptFor(AddTranscript(s, videoPk, d), videoPk)
      == if TranscriptFor(s, videoPk).Some? then TranscriptFor(s, videoPk) else Some(NewTranscript(s, videoPk, d))
  {
    FirstRowAppend(s.transcripts, NewTranscript(s, videoPk, d), TranscriptOwner, videoPk);
  }

  /** `get_motif_coding` after `create_motif_coding`: the new row, unless the video already had one. */
  lemma CodingAfterCreate(s: Store, videoPk: nat, transcriptPk: nat, d: CodingData)
    ensures CodingFor(AddCoding(s, videoPk, transcriptPk, d), videoPk)
      == if CodingFor(s, videoPk).Some? then CodingFor(s, videoPk) else Some(NewCoding(s, videoPk, transcriptPk, d))
  {
    FirstRowAppend(s.codings, NewCoding(s, videoPk, transcriptPk, d), CodingOwner, videoPk);
  }

  // ---------------------------------------------------------------------
  // Statistics
  // ---------------------------------------------------------------------

  datatype Stats = Stats(
    totalVideos: nat, completed: nat, processing: nat, failed: nat, withCaptions: nat, withAiCoding: nat)

  function CountStatus(vs: seq<Video>, status: string): (n: nat)
    ensures n <= |vs|
  {
    if vs == [] then 0 else (if vs[0].status == Some(status) then 1 else 0) + CountStatus(vs[1..], status)
  }

  function CountCaptioned(vs: seq<Video>): (n: nat)
    ensures n <= |vs|
  {
    if vs == [] then 0 else (if vs[0].hasCaptions == Some(true) then 1 else 0) + CountCaptioned(vs[1..])
  }

  /** The positions of the videos with status `status`. */
  function StatusRows(vs: seq<Video>, status: string): set<nat>
  {
    set i: nat | i < |vs| && vs[i].status == Some(status)
  }

  lemma {:induction false} CountStatusAppend(vs: seq<Video>, v: Video, status: string)
    ensures CountStatus(vs + [v], status) == CountStatus(vs, status) + (if v.status == Some(status) then 1 else 0)
  {
    if vs != [] {
      assert (vs + [v])[1..] == vs[1..] + [v];
      CountStatusAppend(vs[1..], v, status);
    }
  }

  /** A status count is the number of rows carrying that status. */
  lemma {:induction false} CountStatusRows(vs: seq<Video>, status: string)
    ensures CountStatus(vs, status) == |StatusRows(vs, status)|
    decreases |vs|
  {
    if vs == [] {
      assert StatusRows(vs, status) == {};
    } else {
      var n := |vs| - 1;
      var init := vs[..n];
      assert vs == init + [vs[n]];
      CountStatusAppend(init, vs[n], status);
      CountStatusRows(init, status);
      if vs[n].status == Some(status) {
        assert StatusRows(vs, status) == StatusRows(init, status) + {n};
      } else {
        assert StatusRows(vs, status) == StatusRows(init, status);
      }
    }
  }

  /** The positions of the videos known to have captions. */
  function CaptionedRows(vs: seq<Video>): set<nat>
  {
    set i: nat | i < |vs| && vs[i].hasCaptions == Some(true)
  }

  lemma {:induction false} CountCaptionedAppend(vs: seq<Video>, v: Video)
    ensures CountCaptioned(vs + [v]) == CountCaptioned(vs) + (if v.hasCaptions == Some(true) then 1 else 0)
  {
    if vs != [] {
      assert (vs + [v])[1..] == vs[1..] + [v];
      CountCaptionedAppend(vs[1..], v);
    }
  }

  /** The caption count is the number of rows whose `has_captions` is true. */
  lemma {:induction false} CountCaptionedRows(vs: seq<Video>)
    ensures CountCaptioned(vs) == |CaptionedRows(vs)|
    decreases |vs|
  {
    if vs == [] {
      assert CaptionedRows(vs) == {};
    } else {
      var n := |vs| - 1;
      var init := vs[..n];
      assert vs == init + [vs[n]];
      CountCaptionedAppend(init, vs[n]);
      CountCaptionedRows(init);
      if vs[n].hasCaptions == Some(true) {
        assert CaptionedRows(vs) == CaptionedRows(init) + {n};
      } else {
        assert CaptionedRows(vs) == CaptionedRows(init);
      }
    }
  }

  /**
   * `get_database_stats`: the number of videos, of videos in each of three
   * statuses, of captioned videos, and of coding rows.
   */
  function DatabaseStats(s: Store): (st: Stats)
    ensures st.totalVideos == |s.videos| && st.withAiCoding == |s.codings|
    ensures st.completed == |StatusRows(s.videos, Completed)|
    ensures st.processing == |StatusRows(s.videos, Processing)|
    ensures st.failed == |StatusRows(s.videos, Failed)|
    ensures st.withCaptions == |CaptionedRows(s.videos)|
  {
    CountStatusRows(s.videos, Completed);
    CountStatusRows(s.videos, Processing);
    CountStatusRows(s.videos, Failed);
    CountCaptionedRows(s.videos);
    Stats(|s.videos|, CountStatus(s.videos, Completed), CountStatus(s.videos, Processing),
      CountStatus(s.videos, Failed), CountCaptioned(s.videos), |s.codings|)
  }

  /** A video has one status, so the three status counts together never exceed the total. */
  lemma {:induction false} StatusCountsBound(vs: seq<Video>)
    ensures CountStatus(vs, Completed) + CountStatus(vs, Processing) + CountStatus(vs, Failed) <= |vs|
  {
    if vs != [] {
      StatusCountsBound(vs[1..]);
    }
  }

  /** The statistics: counts bounded by the total, and codings counted as rows. */
  lemma StatsBounds(s: Store)
    ensures var st := DatabaseStats(s);
      && st.totalVideos >= st.completed + st.processing + st.failed
      && st.totalVideos >= st.withCaptions
      && st.withAiCoding == |s.codings|
  {
    StatusCountsBound(s.videos);
  }

  /** Two codings of one video count twice: the figure counts rows, not distinct videos. */
  lemma CodingsCountedAsRows(s: Store, videoPk: nat, transcriptPk: nat, d: CodingData)
    ensures var t := AddCoding(AddCoding(s, videoPk, transcriptPk, d), videoPk, transcriptPk, d);
      DatabaseStats(t).withAiCoding == DatabaseStats(s).withAiCoding + 2
  {
  }

  /** Rows of a consistent table have distinct projections: `id` tells them apart. */
  lemma DistinctVideoDicts(s: Store, i: nat, j: nat)
    requires Consistent(s) && i < j < |s.videos|
    ensures VideoToDict(s.videos[i]) != VideoToDict(s.videos[j])
    ensures VideoToDict(s.videos[i]).videoId != VideoToDict(s.videos[j]).videoId
  {
    assert VideoPk(s.videos[i]) < VideoPk(s.videos[j]);
  }

  // ---------------------------------------------------------------------
  // The store in place
  // ---------------------------------------------------------------------

  class Database {
    var videos: seq<Video>
    var transcripts: seq<Transcript>
    var codings: seq<MotifCoding>
    var clock: nat

    function State(): Store
      reads this
    {
      Store(videos, transcripts, codings, clock)
    }

    predicate Valid()
      reads this
    {
      Consistent(State())
    }

    constructor ()
      ensures State() == EmptyStore && Valid()
    {
      videos, transcripts, codings, clock := [], [], [], 0;
    }

    /** `create_video`: a duplicate YouTube id is refused and nothing is written. */
    method CreateVideo(data: VideoData) returns (video: Option<Video>)
      requires Valid()
      modifies this
      ensures Valid()
      ensures Duplicate(old(State()), data.videoId) ==> video.None? && State() == old(State())
      ensures !Duplicate(old(State()), data.videoId) ==>
        video == Some(NewVideo(old(State()), data)) && State() == AddVideo(old(State()), data)
    {
      if VideoIndex(videos, data.videoId).Some? {
        return None;
      }
      AddVideoConsistent(State(), data);
      var v := NewVideo(State(), data);
      videos := videos + [v];
      clock := clock + 1;
      video := Some(v);
    }

    /** `update_video`: the loop assigns the updates one by one to the matching row, which it returns. */
    method UpdateVideo(videoId: string, updates: seq<Update>) returns (video: Option<Video>)
      requires Valid()
      modifies this
      ensures Valid()
      ensures State() == UpdateVideoIn(old(State()), videoId, updates)
      ensures video == VideoById(State(), videoId)
    {
      var i := VideoIndex(videos, videoId);
      if i.None? {
        return None;
      }
      var v := videos[i.value];
      for k := 0 to |updates|
        invariant v == ApplyAll(videos[i.value], updates[..k])
      {
        assert updates[..k + 1][..k] == updates[..k];
        v := Apply(v, updates[k]);
      }
      assert updates[..|updates|] == updates;
      UpdateVideoEffect(State(), videoId, updates);
      SameVideoKeysConsistent(State(), UpdateVideoIn(State(), videoId, updates));
      videos := videos[i.value := v];
      video := Some(v);
    }

    /** `delete_video`, with its cascade. */
    method DeleteVideo(videoId: string) returns (deleted: bool)
      requires Valid()
      modifies this
      ensures Valid()
      ensures (State(), deleted) == DeleteVideoIn(old(State()), videoId)
    {
      ghost var before := State();
      DeleteVideoConsistent(before, videoId);
      var i := VideoIndex(videos, videoId);
      if i.None? {
        return false;
      }
      var pk := videos[i.value].id;
      var gone := OwnedTranscripts(State(), pk);
      videos := RemoveAt(videos, i.value);
      codings := UnlinkAll(Without(codings, CodingOwner, pk), gone);
      transcripts := Without(transcripts, TranscriptOwner, pk);
      deleted := true;
      assert State() == DeleteVideoIn(before, videoId).0;
    }

    /** `create_transcript`, with its effect on the owning video. */
    method CreateTranscript(videoPk: nat, data: TranscriptData) returns (transcript: Transcript)
      requires Valid()
      modifies this
      ensures Valid()
      ensures transcript == NewTranscript(old(State()), videoPk, data)
      ensures State() == AddTranscript(old(State()), videoPk, data)
    {
      AddTranscriptConsistent(State(), videoPk, data);
      transcript := NewTranscript(State(), videoPk, data);
      transcripts := transcripts + [transcript];
      var j := First(videos, VideoPk, videoPk);
      if j.Some? {
        videos := videos[j.value := MarkCaptioned(videos[j.value])];
      }
    }

    /** `create_motif_coding`. */
    method CreateMotifCoding(videoPk: nat, transcriptPk: nat, data: CodingData) returns (coding: MotifCoding)
      requires Valid()
      modifies this
      ensures Valid()
      ensures coding == NewCoding(old(State()), videoPk, transcriptPk, data)
      ensures State() == AddCoding(old(State()), videoPk, transcriptPk, data)
    {
      AddCodingConsistent(State(), videoPk, transcriptPk, data);
      coding := NewCoding(State(), videoPk, transcriptPk, data);
      codings := codings + [coding];
    }
  }
}
