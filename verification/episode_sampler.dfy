/**
  The n-way one-shot evaluation sampler (`NWayOneShotEvalSet`): one query
  image and `numWay` candidates, of which the one at position `matchIndex`
  comes from the query's own character directory.

  `__getitem__` reads the module-level `categories` and `root_dir`, not the
  dataset's own fields; they are explicit parameters here.  The module never
  assigns those names itself: a caller has to, or the first draw raises
  `NameError`.
*/
module EpisodeSampler {
  import opened Outcome
  import opened Draws
  import opened Corpus

  datatype EvalDataset<!I> = EvalDataset(categories: seq<Category>, root: string, setSize: int, numWay: int, transform: Option<I -> I>)

  /** The item `__getitem__` returns: the query, the candidate list and the label. */
  datatype Episode<I> = Episode(query: Pick<I>, candidates: seq<Pick<I>>, matchIndex: nat)

  /** `__len__`: the configured set size, whatever the corpus and the draws. */
  function Len<I>(ds: EvalDataset<I>): (n: int)
    ensures n == ds.setSize
  {
    ds.setSize
  }

  /** The loop `while testImgDir == imgDir: testImgDir = root_dir + ...` run for
      at most `fuel` iterations; None when it has not exited by then.  Its body
      recomputes the very path it started from. */
  function SpinRedraw(root: string, alphabet: string, character: string, imgDir: string, testDir: string, fuel: nat)
    : (r: Option<string>)
    ensures testDir != imgDir ==> r == Some(testDir)
    ensures r.Some? ==> r.value != imgDir && (r.value == testDir || r.value == CharacterDir(root, alphabet, character))
    decreases fuel
  {
    if testDir != imgDir then Some(testDir)
    else if fuel == 0 then None
    else SpinRedraw(root, alphabet, character, imgDir, CharacterDir(root, alphabet, character), fuel - 1)
  }

  /** The loop never draws again: it either exits at once with the directory it
      was given, or it has not exited after any number of iterations. */
  lemma {:induction false} SpinNeverRedraws(root: string, alphabet: string, character: string, imgDir: string, fuel: nat)
    ensures var dir := CharacterDir(root, alphabet, character);
            SpinRedraw(root, alphabet, character, imgDir, dir, fuel) == if dir != imgDir then Some(dir) else None
    decreases fuel
  {
    if fuel > 0 {
      SpinNeverRedraws(root, alphabet, character, imgDir, fuel - 1);
    }
  }

  /** What a candidate at position `pos` must be: at the label position, a file
      from the query's directory; elsewhere, a file from a directory other than
      the query's, of a character the descriptor offers. */
  predicate SlotFilled<I(==)>(categories: seq<Category>, root: string, listing: Listing, open: string -> I,
                              transform: Option<I -> I>, query: Pick<I>, matchIndex: nat, pos: nat, p: Pick<I>)
  {
    && (pos == matchIndex ==> p.alphabet == query.alphabet && p.character == query.character && p.dir == query.dir)
    && (pos != matchIndex ==> p.dir != query.dir && Offers(categories, p.alphabet, p.character)
                              && p.dir == CharacterDir(root, p.alphabet, p.character))
    && p.dir in listing && p.name in listing[p.dir]
    && p.image == Load(open, transform, p.dir, p.name)
  }

  /** One iteration of the candidate loop (lines 106-127). */
  function Candidate<I(==)>(categories: seq<Category>, root: string, listing: Listing, open: string -> I,
                            transform: Option<I -> I>, query: Pick<I>, matchIndex: nat, pos: nat, o: Oracle)
    : (r: Result<Drawn<Pick<I>>, Fault>)
    ensures r.Ok? ==> SlotFilled(categories, root, listing, open, transform, query, matchIndex, pos, r.value.item)
    ensures r == Err(Diverges) ==> pos != matchIndex
    ensures r.Err? ==> r.error != NonPositiveBound
  {
    if pos == matchIndex then
      var n :- DrawFile(listing, query.dir, o);
      Ok(Drawn(Pick(query.alphabet, query.character, query.dir, n.item, Load(open, transform, query.dir, n.item)), n.rest))
    else
      var ch :- DrawCharacter(categories, o);
      var dir := CharacterDir(root, ch.item.alphabet, ch.item.character);
      // SpinNeverRedraws: the loop at lines 118-119 is left at once or never
      if dir == query.dir then Err(Diverges)
      else
        var n :- DrawFile(listing, dir, ch.rest);
        Ok(Drawn(Pick(ch.item.alphabet, ch.item.character, dir, n.item, Load(open, transform, dir, n.item)), n.rest))
  }

  /** At a non-label position, the step diverges exactly when the literal
      loop, run for any number of iterations on the drawn character, has not
      exited; when the step completes, its directory is the one the loop
      exits with. */
  lemma CandidateAgreesWithSpin<I>(categories: seq<Category>, root: string, listing: Listing, open: string -> I,
                                   transform: Option<I -> I>, query: Pick<I>, matchIndex: nat, pos: nat,
                                   i: nat, j: nat, o: Oracle, fuel: nat)
    requires pos != matchIndex
    requires i < |categories| && j < |categories[i].characters|
    ensures var a, c := categories[i].alphabet, categories[i].characters[j];
            var spin := SpinRedraw(root, a, c, query.dir, CharacterDir(root, a, c), fuel);
            var r := Candidate(categories, root, listing, open, transform, query, matchIndex, pos, [i, j] + o);
            && (r == Err(Diverges) <==> spin == None)
            && (r.Ok? ==> spin == Some(r.value.item.dir))
  {
    DrawCharacterReachesEvery(categories, i, j, o);
    SpinNeverRedraws(root, categories[i].alphabet, categories[i].characters[j], query.dir, fuel);
  }

  /** Every character the descriptor offers has directory `imgDir`, and no
      draw of a category or character fails for want of choices. */
  predicate AllCharactersIn(categories: seq<Category>, root: string, imgDir: string) {
    && |categories| > 0
    && (forall i :: 0 <= i < |categories| ==> |categories[i].characters| > 0)
    && (forall i, j :: 0 <= i < |categories| && 0 <= j < |categories[i].characters| ==>
          OfferedDir(categories, root, i, j) == imgDir)
  }

  /** All offered characters share one directory. */
  ghost predicate OneDirectory(categories: seq<Category>, root: string) {
    exists d :: AllCharactersIn(categories, root, d)
  }

  /** An offered character lies in the directory every offered character lies in. */
  lemma OfferedIn(categories: seq<Category>, root: string, imgDir: string, ch: CharacterRef)
    requires AllCharactersIn(categories, root, imgDir)
    requires Offers(categories, ch.alphabet, ch.character)
    ensures CharacterDir(root, ch.alphabet, ch.character) == imgDir
  {
    var i :| 0 <= i < |categories| && categories[i].alphabet == ch.alphabet && ch.character in categories[i].characters;
    var j :| 0 <= j < |categories[i].characters| && categories[i].characters[j] == ch.character;
    assert OfferedDir(categories, root, i, j) == imgDir;
  }

  /** The intended redraw taken literally, `while testImgDir == imgDir` with a
      fresh category and character drawn in its body: it consumes draws until
      the directory differs from the query's. */
  function RedrawDirLoop(categories: seq<Category>, root: string, imgDir: string, current: CharacterRef, o: Oracle)
    : (r: Result<Drawn<CharacterRef>, Fault>)
    ensures r.Ok? ==> CharacterDir(root, r.value.item.alphabet, r.value.item.character) != imgDir
    ensures r.Ok? ==> r.value.item == current || Offers(categories, r.value.item.alphabet, r.value.item.character)
    ensures r.Err? ==> r.error == EmptyChoice || r.error == OutOfDraws
    decreases |o|
  {
    if CharacterDir(root, current.alphabet, current.character) != imgDir then Ok(Drawn(current, o))
    else
      var ch :- DrawCharacter(categories, o);
      RedrawDirLoop(categories, root, imgDir, ch.item, ch.rest)
  }

  /** The redraw loop as evidently intended: draw a new category and character
      until the directory differs from the query's. */
  function RedrawDir(categories: seq<Category>, root: string, imgDir: string, current: CharacterRef, o: Oracle)
    : (r: Result<Drawn<CharacterRef>, Fault>)
    ensures r.Ok? ==> CharacterDir(root, r.value.item.alphabet, r.value.item.character) != imgDir
    ensures r.Ok? ==> r.value.item == current || Offers(categories, r.value.item.alphabet, r.value.item.character)
    ensures r == Err(Diverges) <==>
              CharacterDir(root, current.alphabet, current.character) == imgDir && AllCharactersIn(categories, root, imgDir)
    ensures r.Err? ==> r.error == Diverges || r.error == EmptyChoice || r.error == OutOfDraws
    decreases |o|
  {
    if CharacterDir(root, current.alphabet, current.character) != imgDir then Ok(Drawn(current, o))
    else if AllCharactersIn(categories, root, imgDir) then Err(Diverges)
    else
      var ch :- DrawCharacter(categories, o);
      RedrawDir(categories, root, imgDir, ch.item, ch.rest)
  }

  /** Where the loop can be left, the intended redraw and the literal loop
      agree; where every offered character lies in the query's directory, the
      loop exhausts every finite supply of draws without leaving. */
  lemma {:induction false} RedrawDirAgreesWithLoop(categories: seq<Category>, root: string, imgDir: string,
                                                   current: CharacterRef, o: Oracle)
    ensures (RedrawDir(categories, root, imgDir, current, o) == Err(Diverges)
             ==> RedrawDirLoop(categories, root, imgDir, current, o) == Err(OutOfDraws))
    ensures (RedrawDir(categories, root, imgDir, current, o) != Err(Diverges)
             ==> RedrawDir(categories, root, imgDir, current, o) == RedrawDirLoop(categories, root, imgDir, current, o))
    decreases |o|
  {
    if CharacterDir(root, current.alphabet, current.character) == imgDir {
      var d := DrawCharacter(categories, o);
      if d.Ok? {
        RedrawDirAgreesWithLoop(categories, root, imgDir, d.value.item, d.value.rest);
        if AllCharactersIn(categories, root, imgDir) {
          OfferedIn(categories, root, imgDir, d.value.item);
        }
      } else if AllCharactersIn(categories, root, imgDir) && |o| > 0 {
        var k := o[0] % |categories|;
        assert |categories[k].characters| > 0;
      }
    }
  }

  /** The intended loop can be left whenever the descriptor offers a character
      whose directory is not the query's. */
  lemma RedrawDirCanExit(categories: seq<Category>, root: string, imgDir: string, current: CharacterRef,
                         i: nat, j: nat, o: Oracle)
    requires CharacterDir(root, current.alphabet, current.character) == imgDir
    requires i < |categories| && j < |categories[i].characters|
    requires CharacterDir(root, categories[i].alphabet, categories[i].characters[j]) != imgDir
    ensures RedrawDir(categories, root, imgDir, current, [i, j] + o)
         == Ok(Drawn(CharacterRef(categories[i].alphabet, categories[i].characters[j]), o))
  {
    assert OfferedDir(categories, root, i, j) != imgDir;
    DrawCharacterReachesEvery(categories, i, j, o);
  }

  /** One iteration of the candidate loop with the intended redraw. */
  function CandidateRedrawn<I(==)>(categories: seq<Category>, root: string, listing: Listing, open: string -> I,
                                   transform: Option<I -> I>, query: Pick<I>, matchIndex: nat, pos: nat, o: Oracle)
    : (r: Result<Drawn<Pick<I>>, Fault>)
    ensures r.Ok? ==> SlotFilled(categories, root, listing, open, transform, query, matchIndex, pos, r.value.item)
    ensures r == Err(Diverges) ==> pos != matchIndex && AllCharactersIn(categories, root, query.dir)
    ensures r.Err? ==> r.error != NonPositiveBound
  {
    if pos == matchIndex then
      var n :- DrawFile(listing, query.dir, o);
      Ok(Drawn(Pick(query.alphabet, query.character, query.dir, n.item, Load(open, transform, query.dir, n.item)), n.rest))
    else
      var ch0 :- DrawCharacter(categories, o);
      var ch :- RedrawDir(categories, root, query.dir, ch0.item, ch0.rest);
      var dir := CharacterDir(root, ch.item.alphabet, ch.item.character);
      var n :- DrawFile(listing, dir, ch.rest);
      Ok(Drawn(Pick(ch.item.alphabet, ch.item.character, dir, n.item, Load(open, transform, dir, n.item)), n.rest))
  }

  /** With the intended redraw, a non-label position that has the two draws
      for its first character diverges exactly when every offered character
      lies in the query's directory. */
  lemma RedrawnSlotDivergesIff<I>(categories: seq<Category>, root: string, listing: Listing, open: string -> I,
                                  transform: Option<I -> I>, query: Pick<I>, matchIndex: nat, pos: nat, o: Oracle)
    requires pos != matchIndex && |o| >= 2
    ensures CandidateRedrawn(categories, root, listing, open, transform, query, matchIndex, pos, o) == Err(Diverges)
        <==> AllCharactersIn(categories, root, query.dir)
  {
    if AllCharactersIn(categories, root, query.dir) {
      var k := o[0] % |categories|;
      assert |categories[k].characters| > 0;
      var d := DrawCharacter(categories, o);
      assert d.Ok?;
      OfferedIn(categories, root, query.dir, d.value.item);
    }
  }

  /** The candidate step: the loop as written, or the intended redraw. */
  function Slot<I(==)>(redraw: bool, categories: seq<Category>, root: string, listing: Listing, open: string -> I,
                       transform: Option<I -> I>, query: Pick<I>, matchIndex: nat, pos: nat, o: Oracle)
    : (r: Result<Drawn<Pick<I>>, Fault>)
    ensures r.Ok? ==> SlotFilled(categories, root, listing, open, transform, query, matchIndex, pos, r.value.item)
    ensures r == Err(Diverges) ==> pos != matchIndex && (redraw ==> AllCharactersIn(categories, root, query.dir))
    ensures r.Err? ==> r.error != NonPositiveBound
  {
    if redraw then CandidateRedrawn(categories, root, listing, open, transform, query, matchIndex, pos, o)
    else Candidate(categories, root, listing, open, transform, query, matchIndex, pos, o)
  }

  /** Candidates for positions `pos` .. `numWay - 1`, in order. */
  function CandidatesFrom<I(==)>(redraw: bool, categories: seq<Category>, root: string, listing: Listing, open: string -> I,
                                 transform: Option<I -> I>, query: Pick<I>, matchIndex: nat, pos: nat, numWay: nat, o: Oracle)
    : (r: Result<Drawn<seq<Pick<I>>>, Fault>)
    requires pos <= numWay
    ensures r.Ok? ==> |r.value.item| == numWay - pos
    ensures r.Ok? ==> forall k :: 0 <= k < |r.value.item| ==>
                        SlotFilled(categories, root, listing, open, transform, query, matchIndex, pos + k, r.value.item[k])
    ensures r == Err(Diverges) ==> pos < numWay && (pos != matchIndex || pos + 1 < numWay)
    ensures r == Err(Diverges) && redraw ==> AllCharactersIn(categories, root, query.dir)
    ensures r.Err? ==> r.error != NonPositiveBound
    decreases numWay - pos
  {
    if pos == numWay then Ok(Drawn([], o))
    else
      var c :- Slot(redraw, categories, root, listing, open, transform, query, matchIndex, pos, o);
      var cs :- CandidatesFrom(redraw, categories, root, listing, open, transform, query, matchIndex, pos + 1, numWay, c.rest);
      Ok(Drawn([c.item] + cs.item, cs.rest))
  }

  /** An episode as the sampler promises it: a label in [0, numWay), exactly
      numWay candidates, a query that is a listed file of an offered character,
      and every candidate filled as its position requires. */
  predicate WellFormed<I(==)>(ds: EvalDataset<I>, categories: seq<Category>, root: string, listing: Listing,
                              open: string -> I, e: Episode<I>)
  {
    && 0 <= e.matchIndex < ds.numWay
    && |e.candidates| == ds.numWay
    && Offers(categories, e.query.alphabet, e.query.character)
    && e.query.dir == CharacterDir(root, e.query.alphabet, e.query.character)
    && e.query.dir in listing && e.query.name in listing[e.query.dir]
    && e.query.image == Load(open, ds.transform, e.query.dir, e.query.name)
    && forall k :: 0 <= k < |e.candidates| ==>
         SlotFilled(categories, root, listing, open, ds.transform, e.query, e.matchIndex, k, e.candidates[k])
  }

  /** The body of `__getitem__`, with the candidate loop as written
      (`redraw` false) or with the intended redraw (`redraw` true). */
  function SampleEpisode<I(==)>(redraw: bool, ds: EvalDataset<I>, categories: seq<Category>, root: string,
                                listing: Listing, open: string -> I, o: Oracle)
    : (r: Result<Drawn<Episode<I>>, Fault>)
    ensures ds.numWay <= 0 ==> r.Err? && r.error != Diverges
    ensures r == Err(Diverges) ==> ds.numWay >= 2
    ensures r == Err(Diverges) && redraw ==> OneDirectory(categories, root)
    ensures r.Ok? ==> WellFormed(ds, categories, root, listing, open, r.value.item)
  {
    var ch :- DrawCharacter(categories, o);
    var imgDir := CharacterDir(root, ch.item.alphabet, ch.item.character);
    var q :- DrawFile(listing, imgDir, ch.rest);
    var query := Pick(ch.item.alphabet, ch.item.character, imgDir, q.item, Load(open, ds.transform, imgDir, q.item));
    var m :- RandBelow(ds.numWay, q.rest);
    var cs :- CandidatesFrom(redraw, categories, root, listing, open, ds.transform, query, m.item, 0, ds.numWay, m.rest);
    Ok(Drawn(Episode(query, cs.item, m.item), cs.rest))
  }

  /** `__getitem__(idx)` as written; the index is not used. */
  function EpisodeAt<I(==)>(ds: EvalDataset<I>, categories: seq<Category>, root: string, listing: Listing,
                            open: string -> I, o: Oracle, idx: int)
    : (r: Result<Drawn<Episode<I>>, Fault>)
    ensures ds.numWay <= 0 ==> r.Err? && r.error != Diverges
    ensures r == Err(Diverges) ==> ds.numWay >= 2
    ensures r.Ok? ==> WellFormed(ds, categories, root, listing, open, r.value.item)
  {
    SampleEpisode(false, ds, categories, root, listing, open, o)
  }

  /** `__getitem__(idx)` with the redraw loop doing what it evidently means to. */
  function EpisodeAtRedrawn<I(==)>(ds: EvalDataset<I>, categories: seq<Category>, root: string, listing: Listing,
                                   open: string -> I, o: Oracle, idx: int)
    : (r: Result<Drawn<Episode<I>>, Fault>)
    ensures ds.numWay <= 0 ==> r.Err? && r.error != Diverges
    ensures r == Err(Diverges) ==> ds.numWay >= 2 && OneDirectory(categories, root)
    ensures r.Ok? ==> WellFormed(ds, categories, root, listing, open, r.value.item)
  {
    SampleEpisode(true, ds, categories, root, listing, open, o)
  }

  /** In every episode the sampler can return, exactly one candidate, the one
      at `matchIndex`, comes from the query's directory, and no other
      candidate shares the query's character. */
  lemma ExactlyOneMatch<I>(ds: EvalDataset<I>, categories: seq<Category>, root: string, listing: Listing,
                           open: string -> I, e: Episode<I>)
    requires WellFormed(ds, categories, root, listing, open, e)
    ensures (set k | 0 <= k < |e.candidates| && e.candidates[k].dir == e.query.dir) == {e.matchIndex}
    ensures forall k :: 0 <= k < |e.candidates| && k != e.matchIndex ==>
              (e.candidates[k].alphabet, e.candidates[k].character) != (e.query.alphabet, e.query.character)
  {
    assert SlotFilled(categories, root, listing, open, ds.transform, e.query, e.matchIndex, e.matchIndex, e.candidates[e.matchIndex]);
  }

  /** The draws that fill one slot: a category, a character of it and a file
      index; at the label position only the file index is used. */
  datatype SlotDraw = SlotDraw(category: nat, character: nat, file: nat)

  /** The supply of draws that the candidate step at `pos` consumes for `s`. */
  function SlotOracle(pos: nat, matchIndex: nat, s: SlotDraw): Oracle {
    if pos == matchIndex then [s.file] else [s.category, s.character, s.file]
  }

  /** The supplies for consecutive positions from `pos` on, concatenated. */
  function SlotsOracle(pos: nat, matchIndex: nat, slots: seq<SlotDraw>): Oracle
    decreases |slots|
  {
    if |slots| == 0 then [] else SlotOracle(pos, matchIndex, slots[0]) + SlotsOracle(pos + 1, matchIndex, slots[1..])
  }

  /** The draws of `s` name a listed file: of the query's directory at the
      label position, and elsewhere of an offered character whose directory
      is not the query's. */
  predicate SlotDrawFits(categories: seq<Category>, root: string, listing: Listing, imgDir: string,
                         matchIndex: nat, pos: nat, s: SlotDraw)
  {
    if pos == matchIndex then imgDir in listing && s.file < |listing[imgDir]|
    else
      && s.category < |categories| && s.character < |categories[s.category].characters|
      && OfferedDir(categories, root, s.category, s.character) != imgDir
      && OfferedDir(categories, root, s.category, s.character) in listing
      && s.file < |listing[OfferedDir(categories, root, s.category, s.character)]|
  }

  /** The candidate that the draws of `s` name. */
  function SlotPick<I>(categories: seq<Category>, root: string, listing: Listing, open: string -> I,
                       transform: Option<I -> I>, query: Pick<I>, matchIndex: nat, pos: nat, s: SlotDraw): Pick<I>
    requires SlotDrawFits(categories, root, listing, query.dir, matchIndex, pos, s)
  {
    if pos == matchIndex then
      var name := listing[query.dir][s.file];
      Pick(query.alphabet, query.character, query.dir, name, Load(open, transform, query.dir, name))
    else
      var dir := OfferedDir(categories, root, s.category, s.character);
      var name := listing[dir][s.file];
      Pick(categories[s.category].alphabet, categories[s.category].characters[s.character], dir, name,
           Load(open, transform, dir, name))
  }

  /** Every fitting choice for a slot is what the step returns on its draws,
      as written and with the intended redraw alike. */
  lemma SlotReaches<I>(redraw: bool, categories: seq<Category>, root: string, listing: Listing, open: string -> I,
                           transform: Option<I -> I>, query: Pick<I>, matchIndex: nat, pos: nat, s: SlotDraw, o: Oracle)
    requires SlotDrawFits(categories, root, listing, query.dir, matchIndex, pos, s)
    ensures Slot(redraw, categories, root, listing, open, transform, query, matchIndex, pos, SlotOracle(pos, matchIndex, s) + o)
         == Ok(Drawn(SlotPick(categories, root, listing, open, transform, query, matchIndex, pos, s), o))
  {
    if pos == matchIndex {
      ChooseReachesEvery(listing[query.dir], s.file, o);
    } else {
      assert SlotOracle(pos, matchIndex, s) + o == [s.category, s.character] + ([s.file] + o);
      DrawCharacterReachesEvery(categories, s.category, s.character, [s.file] + o);
      ChooseReachesEvery(listing[OfferedDir(categories, root, s.category, s.character)], s.file, o);
    }
  }

  /** Every fitting choice for positions `pos` .. `numWay - 1` is the candidate
      list the loop returns on their concatenated draws. */
  lemma {:induction false} CandidatesFromReaches<I>(redraw: bool, categories: seq<Category>, root: string,
                                                        listing: Listing, open: string -> I, transform: Option<I -> I>,
                                                        query: Pick<I>, matchIndex: nat, pos: nat, numWay: nat,
                                                        slots: seq<SlotDraw>, o: Oracle)
    requires pos + |slots| == numWay
    requires forall k :: 0 <= k < |slots| ==> SlotDrawFits(categories, root, listing, query.dir, matchIndex, pos + k, slots[k])
    ensures var r := CandidatesFrom(redraw, categories, root, listing, open, transform, query, matchIndex, pos, numWay,
                                    SlotsOracle(pos, matchIndex, slots) + o);
            && r.Ok? && r.value.rest == o && |r.value.item| == |slots|
            && forall k :: 0 <= k < |slots| ==>
                 r.value.item[k] == SlotPick(categories, root, listing, open, transform, query, matchIndex, pos + k, slots[k])
    decreases |slots|
  {
    if |slots| > 0 {
      var tail := SlotsOracle(pos + 1, matchIndex, slots[1..]);
      assert SlotsOracle(pos, matchIndex, slots) + o == SlotOracle(pos, matchIndex, slots[0]) + (tail + o);
      assert SlotDrawFits(categories, root, listing, query.dir, matchIndex, pos + 0, slots[0]);
      SlotReaches(redraw, categories, root, listing, open, transform, query, matchIndex, pos, slots[0], tail + o);
      forall k | 0 <= k < |slots[1..]|
        ensures SlotDrawFits(categories, root, listing, query.dir, matchIndex, pos + 1 + k, slots[1..][k])
      {
        assert slots[1..][k] == slots[k + 1];
        assert SlotDrawFits(categories, root, listing, query.dir, matchIndex, pos + (k + 1), slots[k + 1]);
      }
      CandidatesFromReaches(redraw, categories, root, listing, open, transform, query, matchIndex, pos + 1, numWay,
                            slots[1..], o);
    }
  }

  /** The query a choice of character (i, j) and file p names. */
  function QueryPick<I>(ds: EvalDataset<I>, categories: seq<Category>, root: string, listing: Listing,
                        open: string -> I, i: nat, j: nat, p: nat): Pick<I>
    requires i < |categories| && j < |categories[i].characters|
    requires OfferedDir(categories, root, i, j) in listing && p < |listing[OfferedDir(categories, root, i, j)]|
  {
    var dir := OfferedDir(categories, root, i, j);
    Pick(categories[i].alphabet, categories[i].characters[j], dir, listing[dir][p], Load(open, ds.transform, dir, listing[dir][p]))
  }

  /** Every query, label and fitting choice of candidates is the episode the
      sampler returns on the corresponding draws, as written and with the
      intended redraw alike. */
  lemma EpisodeReaches<I>(redraw: bool, ds: EvalDataset<I>, categories: seq<Category>, root: string,
                              listing: Listing, open: string -> I, i: nat, j: nat, p: nat, m: nat,
                              slots: seq<SlotDraw>, o: Oracle)
    requires i < |categories| && j < |categories[i].characters|
    requires OfferedDir(categories, root, i, j) in listing && p < |listing[OfferedDir(categories, root, i, j)]|
    requires m < ds.numWay && |slots| == ds.numWay
    requires forall k :: 0 <= k < |slots| ==>
               SlotDrawFits(categories, root, listing, OfferedDir(categories, root, i, j), m, k, slots[k])
    ensures var query := QueryPick(ds, categories, root, listing, open, i, j, p);
            var r := SampleEpisode(redraw, ds, categories, root, listing, open, [i, j, p, m] + SlotsOracle(0, m, slots) + o);
            && r.Ok? && r.value.rest == o
            && r.value.item.query == query && r.value.item.matchIndex == m
            && forall k :: 0 <= k < |slots| ==>
                 r.value.item.candidates[k] == SlotPick(categories, root, listing, open, ds.transform, query, m, k, slots[k])
  {
    var dir := OfferedDir(categories, root, i, j);
    var query := QueryPick(ds, categories, root, listing, open, i, j, p);
    var rest := SlotsOracle(0, m, slots) + o;
    assert [i, j, p, m] + SlotsOracle(0, m, slots) + o == [i, j] + ([p] + ([m] + rest));
    DrawCharacterReachesEvery(categories, i, j, [p] + ([m] + rest));
    ChooseReachesEvery(listing[dir], p, [m] + rest);
    RandBelowReachesEvery(ds.numWay, m, rest);
    forall k | 0 <= k < |slots|
      ensures SlotDrawFits(categories, root, listing, query.dir, m, 0 + k, slots[k])
    {
    }
    CandidatesFromReaches(redraw, categories, root, listing, open, ds.transform, query, m, 0, ds.numWay, slots, o);
  }

  /** With one character in the descriptor, a two-way episode as written can
      never finish: its non-matching slot always draws the query's directory. */
  lemma OneCharacterEpisodeDiverges(o: Oracle)
    requires |o| >= 8
    requires o[3] % 2 == 0
    ensures var ds := EvalDataset([], "", 0, 2, None);
            var r := EpisodeAt(ds, [Category("greek", ["alpha"])], "root/", map["root/greek/alpha" := ["a.png"]], Identity, o, 0);
            r == Err(Diverges)
  {
    assert CharacterDir("root/", "greek", "alpha") == "root/greek/alpha";
  }

  /** On the same draws, a non-matching slot whose first character is the
      query's diverges as written and completes with the intended redraw. */
  lemma SlotAsWrittenVersusRedrawn()
    ensures var cats := [Category("greek", ["alpha", "beta"])];
            var listing := map["root/greek/alpha" := ["a.png"], "root/greek/beta" := ["b.png"]];
            var query := Pick("greek", "alpha", "root/greek/alpha", "a.png", "root/greek/alpha/a.png");
            && Candidate(cats, "root/", listing, Identity, None, query, 0, 1, [0, 0, 0, 1, 0]) == Err(Diverges)
            && var r := CandidateRedrawn(cats, "root/", listing, Identity, None, query, 0, 1, [0, 0, 0, 1, 0]);
               r.Ok? && r.value.item.dir == "root/greek/beta"
  {
    var cats := [Category("greek", ["alpha", "beta"])];
    assert CharacterDir("root/", "greek", "alpha") == "root/greek/alpha";
    assert CharacterDir("root/", "greek", "beta") == "root/greek/beta";
    assert OfferedDir(cats, "root/", 0, 1) != "root/greek/alpha";
    DrawCharacterReachesEvery(cats, 0, 0, [0, 1, 0]);
    RedrawDirCanExit(cats, "root/", "root/greek/alpha", CharacterRef("greek", "alpha"), 0, 1, [0]);
  }
}
