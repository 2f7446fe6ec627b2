/**
  The image corpus as the samplers see it: the categories descriptor (each
  alphabet with its characters), the directory layout
  `root + alphabet + '/' + character`, and a directory listing standing in for
  `os.listdir`.  Opening an image and the dataset transform are opaque
  functions supplied by the caller.
*/
module Corpus {
  import opened Outcome
  import opened Draws

  /** One entry of the categories descriptor: an alphabet and its characters. */
  datatype Category = Category(alphabet: string, characters: seq<string>)

  /** What `os.listdir` returns for each existing directory. */
  type Listing = map<string, seq<string>>

  /** A chosen character of a chosen alphabet. */
  datatype CharacterRef = CharacterRef(alphabet: string, character: string)

  /** One sampled image with its provenance. */
  datatype Pick<I> = Pick(alphabet: string, character: string, dir: string, name: string, image: I)

  /** The directory of a character: plain string concatenation, as in the program. */
  function CharacterDir(root: string, alphabet: string, character: string): string {
    root + alphabet + "/" + character
  }

  function FilePath(dir: string, name: string): string {
    dir + "/" + name
  }

  /** The directory of the `j`-th character of the `i`-th category. */
  function OfferedDir(categories: seq<Category>, root: string, i: nat, j: nat): string
    requires i < |categories| && j < |categories[i].characters|
  {
    CharacterDir(root, categories[i].alphabet, categories[i].characters[j])
  }

  /** `Image.open(dir + '/' + name)`, followed by the transform when one is set. */
  function Load<I>(open: string -> I, transform: Option<I -> I>, dir: string, name: string): (r: I)
    ensures transform.None? ==> r == open(dir + "/" + name)
    ensures transform.Some? ==> r == transform.value(open(dir + "/" + name))
  {
    var raw := open(FilePath(dir, name));
    match transform
    case None => raw
    case Some(t) => t(raw)
  }

  /** The opener used by the concrete examples: the image is its path. */
  function Identity(path: string): string {
    path
  }

  /** The descriptor offers `character` under `alphabet`. */
  predicate Offers(categories: seq<Category>, alphabet: string, character: string) {
    exists i :: 0 <= i < |categories| && categories[i].alphabet == alphabet && character in categories[i].characters
  }

  /** `os.listdir(dir)`. */
  function ListDir(listing: Listing, dir: string): (r: Result<seq<string>, Fault>)
    ensures r.Ok? <==> dir in listing
    ensures r.Ok? ==> r.value == listing[dir]
    ensures r.Err? ==> r.error == NoSuchDirectory(dir)
  {
    if dir in listing then Ok(listing[dir]) else Err(NoSuchDirectory(dir))
  }

  /** `random.choice(os.listdir(dir))`. */
  function DrawFile(listing: Listing, dir: string, o: Oracle): (r: Result<Drawn<string>, Fault>)
    ensures dir !in listing ==> r == Err(NoSuchDirectory(dir))
    ensures dir in listing && |listing[dir]| == 0 ==> r == Err(EmptyChoice)
    ensures r.Ok? ==> dir in listing && r.value.item in listing[dir] && |o| >= 1 && r.value.rest == o[1..]
  {
    var names :- ListDir(listing, dir);
    Choose(names, o)
  }

  /** `category = random.choice(categories)` then `random.choice(category[1])`. */
  function DrawCharacter(categories: seq<Category>, o: Oracle): (r: Result<Drawn<CharacterRef>, Fault>)
    ensures |categories| == 0 ==> r == Err(EmptyChoice)
    ensures r.Ok? ==> Offers(categories, r.value.item.alphabet, r.value.item.character)
    ensures r.Ok? ==> |o| >= 2 && r.value.rest == o[2..]
    ensures r.Err? ==> r.error == EmptyChoice || r.error == OutOfDraws
  {
    var c :- Choose(categories, o);
    var ch :- Choose(c.item.characters, c.rest);
    Ok(Drawn(CharacterRef(c.item.alphabet, ch.item), ch.rest))
  }

  /** Every character the descriptor offers is the outcome of some pair of draws. */
  lemma DrawCharacterReachesEvery(categories: seq<Category>, i: nat, j: nat, o: Oracle)
    requires i < |categories| && j < |categories[i].characters|
    ensures DrawCharacter(categories, [i, j] + o)
         == Ok(Drawn(CharacterRef(categories[i].alphabet, categories[i].characters[j]), o))
  {
    assert [i, j] + o == [i] + ([j] + o);
    ChooseReachesEvery(categories, i, [j] + o);
    ChooseReachesEvery(categories[i].characters, j, o);
  }
}
