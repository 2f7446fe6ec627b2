/**
  The training-pair sampler (`OmniglotDataset`): even indices give two images
  of one character (label 1.0), odd indices give images of two independently
  drawn characters whose file names differ (label 0.0).
*/
module PairSampler {
  import opened Outcome
  import opened Draws
  import opened Corpus

  datatype PairDataset<!I> = PairDataset(categories: seq<Category>, root: string, setSize: int, transform: Option<I -> I>)

  /** The item `__getitem__` returns: two images and the label, here `target`. */
  datatype Pair<I> = Pair(first: Pick<I>, second: Pick<I>, target: real)

  /** `__len__`: the configured set size, whatever the corpus and the draws. */
  function Len<I>(ds: PairDataset<I>): (n: int)
    ensures n == ds.setSize
  {
    ds.setSize
  }

  /** The pick names a character the descriptor offers, a file listed in that
      character's directory, and carries that file's loaded image. */
  predicate Sourced<I(==)>(ds: PairDataset<I>, listing: Listing, open: string -> I, p: Pick<I>) {
    && Offers(ds.categories, p.alphabet, p.character)
    && p.dir == CharacterDir(ds.root, p.alphabet, p.character)
    && p.dir in listing && p.name in listing[p.dir]
    && p.image == Load(open, ds.transform, p.dir, p.name)
  }

  /** Both images come from one character directory. */
  predicate SameClassPair<I(==)>(ds: PairDataset<I>, listing: Listing, open: string -> I, p: Pair<I>) {
    && Sourced(ds, listing, open, p.first)
    && Sourced(ds, listing, open, p.second)
    && p.first.alphabet == p.second.alphabet
    && p.first.character == p.second.character
    && p.first.dir == p.second.dir
    && p.target == 1.0
  }

  /** The two images have different file names; their directories are not compared. */
  predicate DifferentNamePair<I(==)>(ds: PairDataset<I>, listing: Listing, open: string -> I, p: Pair<I>) {
    && Sourced(ds, listing, open, p.first)
    && Sourced(ds, listing, open, p.second)
    && p.first.name != p.second.name
    && p.target == 0.0
  }

  /** Every listed name equals `name`. */
  predicate OnlyName(names: seq<string>, name: string) {
    forall i :: 0 <= i < |names| ==> names[i] == name
  }

  /** The redraw loop `while img1Name == img2Name: img2Name = random.choice(...)`
      as the program runs it: it consumes draws until the names differ. */
  function RedrawLoop(names: seq<string>, first: string, current: string, o: Oracle): (r: Result<Drawn<string>, Fault>)
    ensures r.Ok? ==> r.value.item != first && (r.value.item == current || r.value.item in names)
    ensures r.Err? ==> r.error == EmptyChoice || r.error == OutOfDraws
    decreases |o|
  {
    if current != first then Ok(Drawn(current, o))
    else
      var d :- Choose(names, o);
      RedrawLoop(names, first, d.item, d.rest)
  }

  /** The redraw loop with its divergence made explicit: when every listed name
      is the first name, no draw can ever leave the loop. */
  function RedrawSecond(names: seq<string>, first: string, current: string, o: Oracle): (r: Result<Drawn<string>, Fault>)
    ensures r.Ok? ==> r.value.item != first && (r.value.item == current || r.value.item in names)
    ensures r == Err(Diverges) <==> current == first && |names| > 0 && OnlyName(names, first)
    ensures r.Err? ==> r.error == Diverges || r.error == EmptyChoice || r.error == OutOfDraws
    decreases |o|
  {
    if current != first then Ok(Drawn(current, o))
    else if |names| == 0 then Err(EmptyChoice)
    else if OnlyName(names, first) then Err(Diverges)
    else
      var d :- Choose(names, o);
      RedrawSecond(names, first, d.item, d.rest)
  }

  /** Where the loop can be left, the two agree; where it diverges, the loop
      as written exhausts every finite supply of draws without leaving. */
  lemma {:induction false} RedrawAgreesWithLoop(names: seq<string>, first: string, current: string, o: Oracle)
    ensures RedrawSecond(names, first, current, o) == Err(Diverges) ==> RedrawLoop(names, first, current, o) == Err(OutOfDraws)
    ensures RedrawSecond(names, first, current, o) != Err(Diverges) ==> RedrawSecond(names, first, current, o) == RedrawLoop(names, first, current, o)
    decreases |o|
  {
    if current != first || |names| == 0 || |o| == 0 {
    } else {
      var d := Choose(names, o);
      assert d.Ok?;
      RedrawAgreesWithLoop(names, first, d.value.item, d.value.rest);
      if OnlyName(names, first) {
        var k := o[0] % |names|;
        assert d.value.item == names[k];
      }
    }
  }

  /** The loop can be left whenever the directory lists some other name. */
  lemma RedrawCanExit(names: seq<string>, first: string, j: nat, o: Oracle)
    requires j < |names| && names[j] != first
    ensures RedrawSecond(names, first, first, [j] + o) == Ok(Drawn(names[j], o))
  {
    ChooseReachesEvery(names, j, o);
  }

  /** The even branch (lines 48-58). */
  function SameClass<I(==)>(ds: PairDataset<I>, listing: Listing, open: string -> I, o: Oracle): (r: Result<Drawn<Pair<I>>, Fault>)
    ensures r.Ok? ==> SameClassPair(ds, listing, open, r.value.item)
    ensures r.Err? ==> r.error != Diverges && r.error != NonPositiveBound
  {
    var ch :- DrawCharacter(ds.categories, o);
    var dir := CharacterDir(ds.root, ch.item.alphabet, ch.item.character);
    var n1 :- DrawFile(listing, dir, ch.rest);
    var n2 :- DrawFile(listing, dir, n1.rest);
    var a, c := ch.item.alphabet, ch.item.character;
    Ok(Drawn(Pair(Pick(a, c, dir, n1.item, Load(open, ds.transform, dir, n1.item)),
                  Pick(a, c, dir, n2.item, Load(open, ds.transform, dir, n2.item)),
                  1.0),
             n2.rest))
  }

  /** The odd branch (lines 61-70): both categories are drawn, then both
      characters, then one name from each directory; only the second name is
      redrawn, always from the second directory. */
  function DifferentClass<I(==)>(ds: PairDataset<I>, listing: Listing, open: string -> I, o: Oracle): (r: Result<Drawn<Pair<I>>, Fault>)
    ensures r.Ok? ==> DifferentNamePair(ds, listing, open, r.value.item)
    ensures r.Err? ==> r.error != NonPositiveBound
  {
    var c1 :- Choose(ds.categories, o);
    var c2 :- Choose(ds.categories, c1.rest);
    var ch1 :- Choose(c1.item.characters, c2.rest);
    var ch2 :- Choose(c2.item.characters, ch1.rest);
    var dir1 := CharacterDir(ds.root, c1.item.alphabet, ch1.item);
    var dir2 := CharacterDir(ds.root, c2.item.alphabet, ch2.item);
    var n1 :- DrawFile(listing, dir1, ch2.rest);
    var n2 :- DrawFile(listing, dir2, n1.rest);
    var n2' :- RedrawSecond(listing[dir2], n1.item, n2.item, n2.rest);
    Ok(Drawn(Pair(Pick(c1.item.alphabet, ch1.item, dir1, n1.item, Load(open, ds.transform, dir1, n1.item)),
                  Pick(c2.item.alphabet, ch2.item, dir2, n2'.item, Load(open, ds.transform, dir2, n2'.item)),
                  0.0),
             n2'.rest))
  }

  /** `__getitem__(idx)`: the parity of the index alone selects the branch.
      Python's `idx % 2` and Dafny's agree for negative indices too. */
  function PairAt<I(==)>(ds: PairDataset<I>, listing: Listing, open: string -> I, o: Oracle, idx: int): (r: Result<Drawn<Pair<I>>, Fault>)
    ensures r.Ok? ==> (r.value.item.target == 1.0 <==> idx % 2 == 0)
    ensures r.Ok? ==> (r.value.item.target == 0.0 <==> idx % 2 != 0)
    ensures r.Ok? && idx % 2 == 0 ==> SameClassPair(ds, listing, open, r.value.item)
    ensures r.Ok? && idx % 2 != 0 ==> DifferentNamePair(ds, listing, open, r.value.item)
    ensures r == Err(Diverges) ==> idx % 2 != 0
    ensures r.Err? ==> r.error != NonPositiveBound
  {
    if idx % 2 == 0 then SameClass(ds, listing, open, o)
    else DifferentClass(ds, listing, open, o)
  }

  /** The indices in [0, n) that select the same-class branch. */
  function EvenIndices(n: nat): set<int> {
    set i | 0 <= i < n && i % 2 == 0
  }

  /** The indices in [0, n) that select the different-class branch. */
  function OddIndices(n: nat): set<int> {
    set i | 0 <= i < n && i % 2 != 0
  }

  lemma {:induction false} ParityCounts(n: nat)
    ensures |EvenIndices(n)| == (n + 1) / 2
    ensures |OddIndices(n)| == n / 2
  {
    if n > 0 {
      ParityCounts(n - 1);
      var k := n - 1;
      if k % 2 == 0 {
        assert EvenIndices(n) == EvenIndices(k) + {k};
        assert OddIndices(n) == OddIndices(k);
      } else {
        assert EvenIndices(n) == EvenIndices(k);
        assert OddIndices(n) == OddIndices(k) + {k};
      }
    }
  }

  /** Indices 0 .. Len(ds) - 1, each sampled with its own supply of draws: of
      the samples, ceil(n/2) carry label 1.0 and floor(n/2) carry label 0.0. */
  lemma LabelsBalanced<I>(ds: PairDataset<I>, listing: Listing, open: string -> I, os: seq<Oracle>)
    requires Len(ds) >= 0 && |os| == Len(ds)
    requires forall i :: 0 <= i < |os| ==> PairAt(ds, listing, open, os[i], i).Ok?
    ensures |set i | 0 <= i < |os| && PairAt(ds, listing, open, os[i], i).value.item.target == 1.0| == (Len(ds) + 1) / 2
    ensures |set i | 0 <= i < |os| && PairAt(ds, listing, open, os[i], i).value.item.target == 0.0| == Len(ds) / 2
  {
    var n := |os|;
    var same := set i | 0 <= i < n && PairAt(ds, listing, open, os[i], i).value.item.target == 1.0;
    var different := set i | 0 <= i < n && PairAt(ds, listing, open, os[i], i).value.item.target == 0.0;
    assert same == EvenIndices(n);
    assert different == OddIndices(n);
    ParityCounts(n);
  }

  /** Draws naming character (i, j) and files p and q of its directory give
      exactly that same-class pair. */
  lemma SameClassReaches<I>(ds: PairDataset<I>, listing: Listing, open: string -> I, i: nat, j: nat, p: nat, q: nat, o: Oracle)
    requires i < |ds.categories| && j < |ds.categories[i].characters|
    requires OfferedDir(ds.categories, ds.root, i, j) in listing
    requires p < |listing[OfferedDir(ds.categories, ds.root, i, j)]| && q < |listing[OfferedDir(ds.categories, ds.root, i, j)]|
    ensures var a, c, dir := ds.categories[i].alphabet, ds.categories[i].characters[j], OfferedDir(ds.categories, ds.root, i, j);
            var n1, n2 := listing[dir][p], listing[dir][q];
            SameClass(ds, listing, open, [i, j, p, q] + o)
              == Ok(Drawn(Pair(Pick(a, c, dir, n1, Load(open, ds.transform, dir, n1)),
                               Pick(a, c, dir, n2, Load(open, ds.transform, dir, n2)), 1.0), o))
  {
    var dir := OfferedDir(ds.categories, ds.root, i, j);
    assert [i, j, p, q] + o == [i, j] + ([p] + ([q] + o));
    DrawCharacterReachesEvery(ds.categories, i, j, [p] + ([q] + o));
    ChooseReachesEvery(listing[dir], p, [q] + o);
    ChooseReachesEvery(listing[dir], q, o);
  }

  /** Draws naming categories i1, i2, characters j1, j2 and files p, q give the
      initial different-class draw: the two directories and names they name. */
  predicate DifferentDrawsFit(ds: PairDataset, listing: Listing, i1: nat, i2: nat, j1: nat, j2: nat, p: nat, q: nat) {
    && i1 < |ds.categories| && i2 < |ds.categories|
    && j1 < |ds.categories[i1].characters| && j2 < |ds.categories[i2].characters|
    && OfferedDir(ds.categories, ds.root, i1, j1) in listing && p < |listing[OfferedDir(ds.categories, ds.root, i1, j1)]|
    && OfferedDir(ds.categories, ds.root, i2, j2) in listing && q < |listing[OfferedDir(ds.categories, ds.root, i2, j2)]|
  }

  /** After the six initial draws, the odd branch continues with exactly the
      redraw loop on the second directory's listing. */
  lemma DifferentClassRedraws<I>(ds: PairDataset<I>, listing: Listing, open: string -> I,
                                 i1: nat, i2: nat, j1: nat, j2: nat, p: nat, q: nat, o: Oracle)
    requires DifferentDrawsFit(ds, listing, i1, i2, j1, j2, p, q)
    ensures var dir1, dir2 := OfferedDir(ds.categories, ds.root, i1, j1), OfferedDir(ds.categories, ds.root, i2, j2);
            var n1, n2 := listing[dir1][p], listing[dir2][q];
            var r := DifferentClass(ds, listing, open, [i1, i2, j1, j2, p, q] + o);
            var s := RedrawSecond(listing[dir2], n1, n2, o);
            && (s.Err? ==> r == Err(s.error))
            && (s.Ok? ==> r == Ok(Drawn(Pair(Pick(ds.categories[i1].alphabet, ds.categories[i1].characters[j1], dir1, n1,
                                                  Load(open, ds.transform, dir1, n1)),
                                             Pick(ds.categories[i2].alphabet, ds.categories[i2].characters[j2], dir2, s.value.item,
                                                  Load(open, ds.transform, dir2, s.value.item)), 0.0), s.value.rest)))
  {
    var cats := ds.categories;
    var dir1, dir2 := OfferedDir(cats, ds.root, i1, j1), OfferedDir(cats, ds.root, i2, j2);
    assert [i1, i2, j1, j2, p, q] + o == [i1] + ([i2] + ([j1] + ([j2] + ([p] + ([q] + o)))));
    ChooseReachesEvery(cats, i1, [i2] + ([j1] + ([j2] + ([p] + ([q] + o)))));
    ChooseReachesEvery(cats, i2, [j1] + ([j2] + ([p] + ([q] + o))));
    ChooseReachesEvery(cats[i1].characters, j1, [j2] + ([p] + ([q] + o)));
    ChooseReachesEvery(cats[i2].characters, j2, [p] + ([q] + o));
    ChooseReachesEvery(listing[dir1], p, [q] + o);
    ChooseReachesEvery(listing[dir2], q, o);
  }

  /** With initial names that differ, the odd branch returns exactly the drawn
      pair; with equal names it diverges exactly when the second directory
      lists nothing but the first name. */
  lemma DifferentClassOnDraws<I>(ds: PairDataset<I>, listing: Listing, open: string -> I,
                                 i1: nat, i2: nat, j1: nat, j2: nat, p: nat, q: nat, o: Oracle)
    requires DifferentDrawsFit(ds, listing, i1, i2, j1, j2, p, q)
    ensures var dir1, dir2 := OfferedDir(ds.categories, ds.root, i1, j1), OfferedDir(ds.categories, ds.root, i2, j2);
            var n1, n2 := listing[dir1][p], listing[dir2][q];
            var r := DifferentClass(ds, listing, open, [i1, i2, j1, j2, p, q] + o);
            && (n1 != n2 ==> r == Ok(Drawn(Pair(Pick(ds.categories[i1].alphabet, ds.categories[i1].characters[j1], dir1, n1,
                                                     Load(open, ds.transform, dir1, n1)),
                                                Pick(ds.categories[i2].alphabet, ds.categories[i2].characters[j2], dir2, n2,
                                                     Load(open, ds.transform, dir2, n2)), 0.0), o)))
            && (r == Err(Diverges) <==> n1 == n2 && OnlyName(listing[dir2], n1))
  {
    DifferentClassRedraws(ds, listing, open, i1, i2, j1, j2, p, q, o);
  }

  /** A one-character corpus used by the edge-case lemmas below. */
  function TinyDataset(): PairDataset<string> {
    PairDataset([Category("greek", ["alpha"])], "root/", 10, None)
  }

  /** Same-class draws are with replacement: both names may be the same file. */
  lemma SameClassNamesMayCoincide()
    ensures var r := PairAt(TinyDataset(), map["root/greek/alpha" := ["a.png", "b.png"]], Identity, [0, 0, 0, 0], 0);
            r.Ok? && r.value.item.first.name == r.value.item.second.name
  {
    var ds, o := TinyDataset(), [0, 0, 0, 0];
    assert CharacterDir("root/", "greek", "alpha") == "root/greek/alpha";
    assert DrawCharacter(ds.categories, o) == Ok(Drawn(CharacterRef("greek", "alpha"), [0, 0]));
  }

  /** Different-class draws are independent: both images may come from one directory. */
  lemma DifferentClassDirsMayCoincide()
    ensures var r := PairAt(TinyDataset(), map["root/greek/alpha" := ["a.png", "b.png"]], Identity, [0, 0, 0, 0, 0, 1], 1);
            r.Ok? && r.value.item.first.dir == r.value.item.second.dir
  {
    var listing := map["root/greek/alpha" := ["a.png", "b.png"]];
    assert CharacterDir("root/", "greek", "alpha") == "root/greek/alpha";
    assert [0, 0, 0, 0, 0, 1] == [0, 0, 0, 0, 0, 1] + [];
    DifferentClassOnDraws(TinyDataset(), listing, Identity, 0, 0, 0, 0, 0, 1, []);
  }

  /** In a corpus of one character holding one file, every odd index with
      enough draws never returns. */
  lemma SingleFileCorpusDiverges(o: Oracle)
    requires |o| >= 6
    ensures PairAt(TinyDataset(), map["root/greek/alpha" := ["a.png"]], Identity, o, 1) == Err(Diverges)
  {
    assert CharacterDir("root/", "greek", "alpha") == "root/greek/alpha";
  }
}
