/**
 Whole runs of the database: any sequence of calls answers as a plain map would,
 and reading in file order lists that map.
 */
module DbRuns {
  import opened Codec
  import opened Layout
  import opened DbFiles
  import opened DbHash
  import opened DbChains
  import opened DbSpec
  import opened DbSpace
  import opened Wrappers
  import opened Db

  /** What a C string cannot hold is not stored. */
  ghost predicate LegalCall(c: Call) {
    c.StoreCall? ==> CString(c.key) && NUL !in c.data
  }

  /** Serves one call; there is no reply when it ends the process. */
  method ServeOne(db: Db, c: Call) returns (reply: Option<Reply>)
    requires db.Valid() && LegalCall(c)
    modifies db
    ensures reply == None <==> old(Dies(db.Room(), db.contents, c))
    ensures reply != None ==> db.Valid() && (db.contents, reply.value) == Answer(old(db.contents), c)
    ensures reply != None ==> db.Room() == SpaceAfter(old(db.Room()), old(db.contents), c)
  {
    match c
    case FetchCall(key) =>
      var data, died := db.Fetch(key);
      reply := if died then None else Some(Data(data));
    case DeleteCall(key) =>
      var r := db.Delete(key);
      reply := if r == Died then None else Some(Code(r.rc));
    case StoreCall(key, data, flag) =>
      var r := db.Store(key, data, flag);
      reply := if r == Died then None else Some(Code(r.rc));
  }

  /** Reply i is the plain map's answer to call i. */
  ghost predicate Right(m: Contents, calls: seq<Call>, replies: seq<Reply>, i: nat) {
    i < |replies| && i < |calls| ==> replies[i] == Answer(MapAfter(m, calls, i), calls[i]).1
  }

  /** The replies so far are right, and none of their calls ends the process. */
  ghost predicate Served(sp: Space, m: Contents, calls: seq<Call>, replies: seq<Reply>) {
    && |replies| <= |calls| && (forall i: nat :: Right(m, calls, replies, i))
    && forall i: nat | i < |replies| :: !DiesAt(sp, m, calls, i)
  }

  lemma ServedMore(sp: Space, m: Contents, calls: seq<Call>, replies: seq<Reply>, reply: Reply)
    requires Served(sp, m, calls, replies) && |replies| < |calls| && !DiesAt(sp, m, calls, |replies|)
    requires reply == Answer(MapAfter(m, calls, |replies|), calls[|replies|]).1
    ensures Served(sp, m, calls, replies + [reply])
  {
    forall i: nat
      ensures Right(m, calls, replies + [reply], i)
    {
      assert Right(m, calls, replies, i);
    }
  }

  /**
   Serves calls one after the other until all are answered or one ends the process. Every reply
   is the plain map's, and the contents follow the map. The run ends at the first call that
   DiesAt names and nowhere else, and a run that is Roomy comes to its end.
   */
  method Serve(db: Db, calls: seq<Call>) returns (replies: seq<Reply>)
    requires db.Valid() && forall c | c in calls :: LegalCall(c)
    modifies db
    ensures Served(old(db.Room()), old(db.contents), calls, replies)
    ensures |replies| < |calls| ==> DiesAt(old(db.Room()), old(db.contents), calls, |replies|)
    ensures |replies| == |calls| ==> db.Valid() && db.contents == MapAfter(old(db.contents), calls, |calls|)
    ensures |replies| == |calls| ==> db.Room() == SpaceThen(old(db.Room()), old(db.contents), calls, |calls|)
    ensures Roomy(old(db.Room()), calls) ==> |replies| == |calls|
  {
    replies := [];
    ghost var m, sp := db.contents, db.Room();
    while |replies| < |calls|
      invariant db.Valid() && Served(sp, m, calls, replies)
      invariant db.contents == MapAfter(m, calls, |replies|) && db.Room() == SpaceThen(sp, m, calls, |replies|)
    {
      assert LegalCall(calls[|replies|]);
      var reply := ServeOne(db, calls[|replies|]);
      if reply == None {
        if Roomy(sp, calls) {
          RoomyRuns(sp, m, calls, |replies|);
        }
        return;
      }
      ServedMore(sp, m, calls, replies, reply.value);
      replies := replies + [reply.value];
    }
  }

  // ---- Listing ----

  /** The places from i on that hold a record that is not blank, in file order. */
  ghost function Places(im: Image<Info>, i: nat): seq<nat>
    decreases |im.order| - i
  {
    var j := NextLive(im, i);
    NextLiveAt(im, i);
    if j < |im.order| then [j] + Places(im, j + 1) else []
  }

  lemma {:induction false} NextLiveAt(im: Image<Info>, i: nat)
    ensures i <= NextLive(im, i)
    ensures NextLive(im, i) < |im.order| ==> !BlankAt(im, NextLive(im, i))
    ensures forall j | i <= j < NextLive(im, i) && j < |im.order| :: BlankAt(im, j)
    decreases |im.order| - i
  {
    if i < |im.order| && BlankAt(im, i) {
      NextLiveAt(im, i + 1);
    }
  }

  lemma {:induction false} PlacesExact(im: Image<Info>, i: nat)
    ensures forall j: nat :: j in Places(im, i) <==> i <= j < |im.order| && !BlankAt(im, j)
    ensures forall p, q | 0 <= p < q < |Places(im, i)| :: Places(im, i)[p] < Places(im, i)[q]
    decreases |im.order| - i
  {
    NextLiveAt(im, i);
    var j := NextLive(im, i);
    if j < |im.order| {
      PlacesExact(im, j + 1);
      var rest := Places(im, j + 1);
      assert Places(im, i) == [j] + rest;
      forall q | 0 <= q < |rest|
        ensures rest[q] > j
      {
        assert rest[q] in rest;
      }
    }
  }

  ghost function Listing(im: Image<Info>, i: nat): (s: seq<(string, string)>) {
    var ps := Places(im, i);
    PlacesExact(im, i);
    seq(|ps|, p requires 0 <= p < |ps| => assert ps[p] in ps; Pair(im, ps[p]))
  }

  /** A record that is not blank is live; a live key that is not blank has one such record. */
  lemma PlaceIsLive(im: Image<Info>, idx: string, dat: string, lists: seq<seq<nat>>, m: Contents, i: nat)
    requires Holds(im, idx, dat) && Inv(im, lists, m, {}) && i < |im.order| && !BlankAt(im, i)
    ensures Pair(im, i).0 in m && m[Pair(im, i).0] == Pair(im, i).1
  {
    RecordIsNoHead(im, idx, dat, i);
    var l, k := OnOneList(im, lists, m, im.order[i]);
  }

  lemma LiveHasPlace(im: Image<Info>, idx: string, dat: string, lists: seq<seq<nat>>, m: Contents, key: string)
    returns (i: nat)
    requires Holds(im, idx, dat) && Inv(im, lists, m, {}) && key in m
    ensures i < |im.order| && Pair(im, i) == (key, m[key])
  {
    assert KeyOk(im, lists, m, key);
    var s := lists[ListOf(key)];
    var k :| 0 < k < |s| && s[k] in im.info && im.info[s[k]].key == key;
    assert LiveAt(im, lists, m, ListOf(key), k);
    Cell(im, idx, dat, s[k]);
    i :| 0 <= i < |im.order| && im.order[i] == s[k];
  }

  lemma PlacesDiffer(im: Image<Info>, idx: string, dat: string, lists: seq<seq<nat>>, m: Contents, i: nat, j: nat)
    requires Holds(im, idx, dat) && Inv(im, lists, m, {}) && i < |im.order| && j < |im.order|
    requires !BlankAt(im, i) && !BlankAt(im, j) && Pair(im, i).0 == Pair(im, j).0
    ensures i == j
  {
    RecordIsNoHead(im, idx, dat, i);
    RecordIsNoHead(im, idx, dat, j);
    var l, k := OnOneList(im, lists, m, im.order[i]);
    var l', k' := OnOneList(im, lists, m, im.order[j]);
    assert KeysDiffer(im, lists, l, k, k');
    OrderDistinct(im, idx, dat, i, j);
  }

  /** The listing from the start holds the pairs whose key is not blank, each exactly once, and nothing else. */
  lemma ListingIsContents(im: Image<Info>, idx: string, dat: string, lists: seq<seq<nat>>, m: Contents)
    requires Holds(im, idx, dat) && Inv(im, lists, m, {})
    ensures forall p | p in Listing(im, 0) :: p.0 in m && m[p.0] == p.1
    ensures forall key | key in m :: (key, m[key]) in Listing(im, 0) <==> !AllBlank(key)
    ensures forall p, q | 0 <= p < q < |Listing(im, 0)| :: Listing(im, 0)[p].0 != Listing(im, 0)[q].0
  {
    PlacesExact(im, 0);
    var ps, ls := Places(im, 0), Listing(im, 0);
    forall p | p in ls
      ensures p.0 in m && m[p.0] == p.1 && !AllBlank(p.0)
    {
      var a :| 0 <= a < |ls| && ls[a] == p;
      assert ps[a] in ps;
      PlaceIsLive(im, idx, dat, lists, m, ps[a]);
    }
    forall key | key in m && !AllBlank(key)
      ensures (key, m[key]) in ls
    {
      var i := LiveHasPlace(im, idx, dat, lists, m, key);
      assert i in ps;
      var a :| 0 <= a < |ps| && ps[a] == i;
      assert ls[a] == Pair(im, i);
    }
    forall p, q | 0 <= p < q < |ls|
      ensures ls[p].0 != ls[q].0
    {
      assert ps[p] in ps && ps[q] in ps;
      if ls[p].0 == ls[q].0 {
        PlacesDiffer(im, idx, dat, lists, m, ps[p], ps[q]);
      }
    }
  }

  /** A record with a separator in its key makes its chain dead, and a dead chain has such a record. */
  lemma SepIsDead(im: Image<Info>, idx: string, dat: string, lists: seq<seq<nat>>, m: Contents, i: nat)
    requires Holds(im, idx, dat) && Inv(im, lists, m, {}) && SepsFirst(im, lists) && i < |im.order| && SEP in Pair(im, i).0
    ensures DeadSet(im, lists) != {}
  {
    RecordIsNoHead(im, idx, dat, i);
    var l, k := OnOneList(im, lists, m, im.order[i]);
    assert SepFirst(im, lists, l, k);
    assert l in DeadSet(im, lists);
  }

  lemma DeadIsListed(im: Image<Info>, idx: string, dat: string, lists: seq<seq<nat>>, m: Contents)
    returns (p: (string, string))
    requires Holds(im, idx, dat) && Inv(im, lists, m, {}) && SepsFirst(im, lists) && DeadSet(im, lists) != {}
    ensures p in Listing(im, 0) && SEP in p.0
  {
    var l :| l in DeadSet(im, lists);
    assert SepFirst(im, lists, l, 1) && LiveAt(im, lists, m, l, 1);
    var key := im.info[lists[l][1]].key;
    p := (key, m[key]);
    ListingIsContents(im, idx, dat, lists, m);
  }

  /** What a listing that stops at the first key with a separator has read. */
  ghost predicate ReadUpTo(out: seq<(string, string)>, all: seq<(string, string)>, died: bool) {
    && out <= all && (forall p | p in out :: SEP !in p.0)
    && if died then |out| < |all| && SEP in all[|out|].0 else out == all
  }

  /** The calls of db_nextrec after db_rewind. */
  method ReadOn(db: Db) returns (out: seq<(string, string)>, died: bool)
    requires db.Valid() && db.idxpos == Pos(db.im, db.idx, 0)
    modifies db`idxpos, db`idxoff, db`ptrval, db`idxbuf, db`datoff, db`datlen
    ensures db.Valid() && ReadUpTo(out, Listing(db.im, 0), died)
  {
    ghost var g, i := db.im, 0;
    out, died := [], false;
    var more := true;
    assert Reading(g, [], 0) by {
      assert [] + Listing(g, 0) == Listing(g, 0);
    }
    while more
      invariant db.Valid() && i <= |g.order| + 1 && (more ==> i <= |g.order| && db.idxpos == Pos(g, db.idx, i))
      invariant if more then Reading(g, out, i) else ReadUpTo(out, Listing(g, 0), died)
      decreases |g.order| + 2 - i, more
    {
      var r;
      r, died := db.NextRec(i);
      ReadingMore(g, out, i);
      if died || r == None {
        more := false;
      } else {
        out := out + [r.value];
        i := NextLive(g, i) + 1;
      }
    }
  }

  /** What has been read from the places before i. */
  ghost predicate Reading(im: Image<Info>, out: seq<(string, string)>, i: nat) {
    out + Listing(im, i) == Listing(im, 0) && forall p | p in out :: SEP !in p.0
  }

  lemma ReadingMore(im: Image<Info>, out: seq<(string, string)>, i: nat)
    requires Reading(im, out, i)
    ensures var j := NextLive(im, i);
            && i <= j && if j >= |im.order| then ReadUpTo(out, Listing(im, 0), false)
            else if SEP in Pair(im, j).0 then ReadUpTo(out, Listing(im, 0), true)
            else Reading(im, out + [Pair(im, j)], j + 1)
  {
    ListingStep(im, i);
    NextLiveAt(im, i);
    var j := NextLive(im, i);
    if j < |im.order| {
      assert out + Listing(im, i) == (out + [Pair(im, j)]) + Listing(im, j + 1);
    }
  }

  /** db_rewind and then db_nextrec until it answers null, or ends the process at a key with a separator. */
  method ListAll(db: Db) returns (out: seq<(string, string)>, died: bool)
    requires db.Valid()
    modifies db`idxpos, db`idxoff, db`ptrval, db`idxbuf, db`datoff, db`datlen
    ensures db.Valid() && ReadUpTo(out, Listing(db.im, 0), died) && (died <==> db.Room().dead != {})
    ensures forall p | p in out :: p.0 in db.contents && db.contents[p.0] == p.1
    ensures !died ==> forall key | key in db.contents :: (key, db.contents[key]) in out <==> !AllBlank(key)
    ensures forall p, q | 0 <= p < q < |out| :: out[p].0 != out[q].0
  {
    db.Rewind();
    FilesTiled(db.im, db.idx, db.dat, 0);
    out, died := ReadOn(db);
    ListingIsContents(db.im, db.idx, db.dat, db.lists, db.contents);
    DeadStops(db.im, db.idx, db.dat, db.lists, db.contents, out, died);
  }

  lemma DeadStops(im: Image<Info>, idx: string, dat: string, lists: seq<seq<nat>>, m: Contents,
                  out: seq<(string, string)>, died: bool)
    requires Holds(im, idx, dat) && Inv(im, lists, m, {}) && SepsFirst(im, lists)
    requires ReadUpTo(out, Listing(im, 0), died)
    ensures died <==> DeadSet(im, lists) != {}
  {
    if died {
      PlacesExact(im, 0);
      var ps := Places(im, 0);
      assert ps[|out|] in ps;
      SepIsDead(im, idx, dat, lists, m, ps[|out|]);
    } else if DeadSet(im, lists) != {} {
      var p := DeadIsListed(im, idx, dat, lists, m);
    }
  }

  lemma BlankKeyFits()
    ensures var sp, c := Space(HEADER, 0, multiset{}, {}), StoreCall(" ", "x", DB_INSERT);
            !Dies(sp, map[], c) && SpaceAfter(sp, map[], c).dead == {}
    ensures StoreSpec(map[], " ", "x", DB_INSERT) == (map[" " := "x"], 0) && AllBlank(" ")
  {
    assert Digits(0) == "0" && Digits(2) == "2";
  }

  /** A key that is all blanks is stored, and not listed. */
  method StoreBlankKey() returns (db: Db, out: seq<(string, string)>)
    ensures fresh(db) && db.Valid() && db.contents == map[" " := "x"]
    ensures out == []
  {
    BlankKeyFits();
    db := new Db();
    var r := db.Store(" ", "x", DB_INSERT);
    var died;
    out, died := ListAll(db);
    FirstIn(out);
  }

  lemma FirstIn<T>(s: seq<T>)
    ensures s != [] ==> s[0] in s
  {
  }

  lemma ListingStep(im: Image<Info>, i: nat)
    ensures var j := NextLive(im, i);
            Listing(im, i) == if j < |im.order| then [Pair(im, j)] + Listing(im, j + 1) else []
  {
    NextLiveAt(im, i);
    PlacesExact(im, i);
    var j := NextLive(im, i);
    if j < |im.order| {
      PlacesExact(im, j + 1);
      assert Places(im, i) == [j] + Places(im, j + 1);
    }
  }
}
