/** The parts catalogue (class SpaceshipParts in src/main.cpp): six lists of
    part descriptions, filled by classifying the lines of a file, reordered by
    a shuffle, and read by the selection operations. */
module Parts {
  import opened Optional
  import opened Strings

  /** The six part kinds, one per list of the catalogue. */
  datatype Category = Engine | Fuselage | Cabin | Wings | Armour | Weapon

  /** The text a line must contain to land in the category. The armour list
      is keyed on the spelling "armor". */
  function Keyword(c: Category): string {
    match c
    case Engine => "engine"
    case Fuselage => "fuselage"
    case Cabin => "cabin"
    case Wings => "wings"
    case Armour => "armor"
    case Weapon => "weapon"
  }

  /** The position of the category in the order the load tries keywords. */
  function Rank(c: Category): nat {
    match c
    case Engine => 0
    case Fuselage => 1
    case Cabin => 2
    case Wings => 3
    case Armour => 4
    case Weapon => 5
  }

  /** The categories in the order the load tries their keywords. */
  const Priority: seq<Category> := [Engine, Fuselage, Cabin, Wings, Armour, Weapon]

  /** The first category of `table` whose keyword occurs in `line`. */
  function FirstMatch(line: string, table: seq<Category>): Option<Category> {
    if table == [] then None
    else if Contains(line, Keyword(table[0])) then Some(table[0])
    else FirstMatch(line, table[1..])
  }

  /** The category the load puts `line` into, or None when it drops it. */
  function Classify(line: string): Option<Category> {
    FirstMatch(line, Priority)
  }

  lemma FirstMatchStep(line: string, c: Category, rest: seq<Category>)
    ensures FirstMatch(line, [c] + rest) ==
      if Contains(line, Keyword(c)) then Some(c) else FirstMatch(line, rest)
  {
    assert ([c] + rest)[1..] == rest;
  }

  /** The table lookup is the cascade of rfind tests that ReadFromFile runs
      on each line. */
  lemma ClassifyCascade(line: string)
    ensures Classify(line) ==
      if Contains(line, "engine") then Some(Engine)
      else if Contains(line, "fuselage") then Some(Fuselage)
      else if Contains(line, "cabin") then Some(Cabin)
      else if Contains(line, "wings") then Some(Wings)
      else if Contains(line, "armor") then Some(Armour)
      else if Contains(line, "weapon") then Some(Weapon)
      else None
  {
    FirstMatchStep(line, Weapon, []);
    FirstMatchStep(line, Armour, [Weapon]);
    FirstMatchStep(line, Wings, [Armour, Weapon]);
    FirstMatchStep(line, Cabin, [Wings, Armour, Weapon]);
    FirstMatchStep(line, Fuselage, [Cabin, Wings, Armour, Weapon]);
    FirstMatchStep(line, Engine, [Fuselage, Cabin, Wings, Armour, Weapon]);
    assert [Weapon] == [Weapon] + [];
    assert Priority == [Engine] + [Fuselage, Cabin, Wings, Armour, Weapon];
    assert [Fuselage, Cabin, Wings, Armour, Weapon] == [Fuselage] + [Cabin, Wings, Armour, Weapon];
    assert [Cabin, Wings, Armour, Weapon] == [Cabin] + [Wings, Armour, Weapon];
    assert [Wings, Armour, Weapon] == [Wings] + [Armour, Weapon];
    assert [Armour, Weapon] == [Armour] + [Weapon];
  }

  /** A table lists each category at most once. */
  predicate Distinct(table: seq<Category>) {
    forall i, j :: 0 <= i < j < |table| ==> table[i] != table[j]
  }

  /** First match only ever answers with an entry of the table. */
  lemma {:induction false} FirstMatchFromTable(line: string, table: seq<Category>)
    ensures FirstMatch(line, table).Some? ==> FirstMatch(line, table).value in table
    decreases |table|
  {
    if table != [] && !Contains(line, Keyword(table[0])) {
      FirstMatchFromTable(line, table[1..]);
    }
  }

  /** No keyword among the first k entries: none at the head, and none
      among the first k - 1 entries after it. */
  lemma NoneBeforeShift(line: string, table: seq<Category>, k: nat)
    requires 0 < k <= |table|
    ensures (forall i :: 0 <= i < k ==> !Contains(line, Keyword(table[i]))) <==>
      !Contains(line, Keyword(table[0])) &&
      forall i :: 0 <= i < k - 1 ==> !Contains(line, Keyword(table[1..][i]))
  {
    var rest := table[1..];
    assert forall i :: 0 <= i < k - 1 ==> rest[i] == table[i + 1];
  }

  /** First match over any table: entry k is chosen exactly when its keyword
      occurs and no earlier entry's keyword does. */
  lemma {:induction false} FirstMatchIsFirst(line: string, table: seq<Category>, k: nat)
    requires k < |table| && Distinct(table)
    ensures FirstMatch(line, table) == Some(table[k]) <==>
      Contains(line, Keyword(table[k])) &&
      forall i :: 0 <= i < k ==> !Contains(line, Keyword(table[i]))
    decreases k
  {
    var rest := table[1..];
    if k == 0 {
      if !Contains(line, Keyword(table[0])) {
        FirstMatchFromTable(line, rest);
        assert table[0] !in rest;
      }
    } else {
      assert Distinct(rest);
      FirstMatchIsFirst(line, rest, k - 1);
      assert rest[k - 1] == table[k];
      assert table[0] != table[k];
      NoneBeforeShift(line, table, k);
    }
  }

  /** First match over any table finds nothing exactly when no entry's
      keyword occurs. */
  lemma {:induction false} FirstMatchNone(line: string, table: seq<Category>)
    ensures FirstMatch(line, table) == None <==>
      forall i :: 0 <= i < |table| ==> !Contains(line, Keyword(table[i]))
    decreases |table|
  {
    if table != [] {
      var rest := table[1..];
      FirstMatchNone(line, rest);
      assert (forall i :: 0 <= i < |table| ==> !Contains(line, Keyword(table[i]))) <==>
        !Contains(line, Keyword(table[0])) &&
        forall i :: 0 <= i < |rest| ==> !Contains(line, Keyword(rest[i]));
    }
  }

  /** Rank is the position of a category in the priority table. */
  lemma RankIsPosition()
    ensures |Priority| == 6 && Distinct(Priority)
    ensures forall c :: Rank(c) < 6 && Priority[Rank(c)] == c
    ensures forall i :: 0 <= i < 6 ==> Rank(Priority[i]) == i
  {
  }

  /** Both directions of the priority rule: a line lands in `c` exactly when
      it contains c's keyword and no keyword tried before it. */
  lemma ClassifyFirstMatching(line: string, c: Category)
    ensures Classify(line) == Some(c) <==>
      Contains(line, Keyword(c)) && forall d :: Rank(d) < Rank(c) ==> !Contains(line, Keyword(d))
  {
    RankIsPosition();
    FirstMatchIsFirst(line, Priority, Rank(c));
    assert (forall d :: Rank(d) < Rank(c) ==> !Contains(line, Keyword(d))) <==>
      forall i :: 0 <= i < Rank(c) ==> !Contains(line, Keyword(Priority[i]));
  }

  /** A line is dropped exactly when it contains none of the six keywords. */
  lemma ClassifyNone(line: string)
    ensures Classify(line) == None <==> forall c :: !Contains(line, Keyword(c))
  {
    RankIsPosition();
    FirstMatchNone(line, Priority);
    if forall i :: 0 <= i < |Priority| ==> !Contains(line, Keyword(Priority[i])) {
      forall c ensures !Contains(line, Keyword(c)) {
        assert Priority[Rank(c)] == c;
      }
    }
  }

  /** A line that mentions an engine goes to the engine list whatever else it
      mentions. */
  lemma EngineTakesPriority(line: string)
    requires Contains(line, "engine")
    ensures Classify(line) == Some(Engine)
  {
    ClassifyCascade(line);
  }

  /** The keyword "armor" does not occur in "armour". */
  lemma ArmorNotInArmour()
    ensures !Contains("armour", "armor")
  {
    var line := "armour";
    forall j: nat ensures !OccursAt(line, "armor", j) {
      if j + 5 <= 6 {
        assert line[j..j + 5][4 - j] == line[4] == 'u';
        assert "armor"[4 - j] != 'u';
      }
    }
    RFindLast(line, "armor");
  }

  /** A line that only says "armour" is dropped: the armour list is keyed on
      "armor". */
  lemma ArmourSpellingDropped()
    ensures Classify("armour") == None
  {
    var line := "armour";
    assert 'e' !in line && 'f' !in line && 'c' !in line && 'w' !in line;
    forall c ensures !Contains(line, Keyword(c)) {
      match c
      case Engine => MissingCharNotContained(line, "engine", 0);
      case Fuselage => MissingCharNotContained(line, "fuselage", 0);
      case Cabin => MissingCharNotContained(line, "cabin", 0);
      case Wings => MissingCharNotContained(line, "wings", 0);
      case Armour => ArmorNotInArmour();
      case Weapon => MissingCharNotContained(line, "weapon", 0);
    }
    ClassifyNone(line);
  }

  /** The lines among the first `n` of `lines` whose classification is `k`,
      in file order. */
  function Collected(lines: seq<string>, n: nat, k: Option<Category>): seq<string>
    requires n <= |lines|
  {
    if n == 0 then []
    else Collected(lines, n - 1, k) + (if Classify(lines[n - 1]) == k then [lines[n - 1]] else [])
  }

  /** The lines of the file that the load puts into category `c`. */
  function Bucket(lines: seq<string>, c: Category): seq<string> {
    Collected(lines, |lines|, Some(c))
  }

  /** The lines of the file that the load drops. */
  function Dropped(lines: seq<string>): seq<string> {
    Collected(lines, |lines|, None)
  }

  /** What is collected are lines of the file with that classification. */
  lemma {:induction false} CollectedClassified(lines: seq<string>, n: nat, k: Option<Category>)
    requires n <= |lines|
    ensures |Collected(lines, n, k)| <= n
    ensures forall x :: x in Collected(lines, n, k) ==> x in lines && Classify(x) == k
  {
    if n > 0 {
      CollectedClassified(lines, n - 1, k);
    }
  }

  /** A bucket holds only lines of the file that classify into its category;
      the dropped lines are lines of the file that classify nowhere. */
  lemma BucketClassified(lines: seq<string>)
    ensures forall c, x :: x in Bucket(lines, c) ==> x in lines && Classify(x) == Some(c)
    ensures forall x :: x in Dropped(lines) ==> x in lines && Classify(x) == None
  {
    forall c ensures forall x :: x in Bucket(lines, c) ==> x in lines && Classify(x) == Some(c) {
      CollectedClassified(lines, |lines|, Some(c));
    }
    CollectedClassified(lines, |lines|, None);
  }

  /** Every line in a category's list contains that category's keyword. */
  lemma BucketHasKeyword(lines: seq<string>, c: Category)
    ensures forall x :: x in Bucket(lines, c) ==> Contains(x, Keyword(c))
  {
    BucketClassified(lines);
    forall x | x in Bucket(lines, c) ensures Contains(x, Keyword(c)) {
      ClassifyFirstMatching(x, c);
    }
  }

  /** Appending an element adds one copy of it and no copy of anything else. */
  lemma CountSnoc<T>(a: seq<T>, b: T, x: T)
    ensures multiset(a + [b])[x] == multiset(a)[x] + (if b == x then 1 else 0)
  {
  }

  /** A prefix one longer is the shorter prefix and the next element. */
  lemma TakeSnoc<T>(s: seq<T>, n: nat)
    requires 0 < n <= |s|
    ensures s[..n] == s[..n - 1] + [s[n - 1]]
  {
  }

  /** Every copy of a line among the first `n` is collected under its own
      classification. */
  lemma {:induction false} CollectedKeepsEveryCopy(lines: seq<string>, n: nat, x: string)
    requires n <= |lines|
    ensures multiset(Collected(lines, n, Classify(x)))[x] == multiset(lines[..n])[x]
  {
    if n > 0 {
      CollectedKeepsEveryCopy(lines, n - 1, x);
      var last := lines[n - 1];
      var before := Collected(lines, n - 1, Classify(x));
      TakeSnoc(lines, n);
      CountSnoc(lines[..n - 1], last, x);
      if Classify(last) == Classify(x) {
        CountSnoc(before, last, x);
      } else {
        assert Collected(lines, n, Classify(x)) == before + [];
        assert last != x;
      }
    }
  }

  /** No line is lost or duplicated: every copy of a line of the file reaches
      the list of its own category, or the dropped lines when it has none
      (and by BucketClassified no other list). */
  lemma LoadKeepsEveryCopy(lines: seq<string>, x: string)
    ensures Classify(x).Some? ==> multiset(Bucket(lines, Classify(x).value))[x] == multiset(lines)[x]
    ensures Classify(x).None? ==> multiset(Dropped(lines))[x] == multiset(lines)[x]
  {
    CollectedKeepsEveryCopy(lines, |lines|, x);
    assert lines[..|lines|] == lines;
  }

  /** Going through one more line adds it to the list of its own category only. */
  lemma CollectedStep(lines: seq<string>, n: nat, k: Option<Category>)
    requires 0 < n <= |lines|
    ensures |Collected(lines, n, k)| ==
      |Collected(lines, n - 1, k)| + (if Classify(lines[n - 1]) == k then 1 else 0)
  {
  }

  /** The first `n` lines are split without loss among the six lists and the
      dropped lines. */
  lemma {:induction false} CollectedCounts(lines: seq<string>, n: nat)
    requires n <= |lines|
    ensures n ==
      |Collected(lines, n, Some(Engine))| + |Collected(lines, n, Some(Fuselage))| +
      |Collected(lines, n, Some(Cabin))| + |Collected(lines, n, Some(Wings))| +
      |Collected(lines, n, Some(Armour))| + |Collected(lines, n, Some(Weapon))| +
      |Collected(lines, n, None)|
  {
    if n > 0 {
      CollectedCounts(lines, n - 1);
      CollectedStep(lines, n, Some(Engine));
      CollectedStep(lines, n, Some(Fuselage));
      CollectedStep(lines, n, Some(Cabin));
      CollectedStep(lines, n, Some(Wings));
      CollectedStep(lines, n, Some(Armour));
      CollectedStep(lines, n, Some(Weapon));
      CollectedStep(lines, n, None);
      match Classify(lines[n - 1])
      case None =>
      case Some(c) =>
        match c
        case Engine =>
        case Fuselage =>
        case Cabin =>
        case Wings =>
        case Armour =>
        case Weapon =>
    }
  }

  /** The six lists and the dropped lines together are as long as the file. */
  lemma LoadCounts(lines: seq<string>)
    ensures |lines| ==
      |Bucket(lines, Engine)| + |Bucket(lines, Fuselage)| + |Bucket(lines, Cabin)| +
      |Bucket(lines, Wings)| + |Bucket(lines, Armour)| + |Bucket(lines, Weapon)| +
      |Dropped(lines)|
  {
    CollectedCounts(lines, |lines|);
  }

  /** Going through one more line appends it to the list `parts` of its
      category, and appends nothing to the other lists. */
  lemma CollectedAppend(parts: seq<string>, lines: seq<string>, i: nat, c: Category)
    requires i < |lines|
    ensures parts + Collected(lines, i + 1, Some(c)) ==
      (parts + Collected(lines, i, Some(c))) + (if Classify(lines[i]) == Some(c) then [lines[i]] else [])
  {
    AppendAssoc(parts, Collected(lines, i, Some(c)),
      if Classify(lines[i]) == Some(c) then [lines[i]] else []);
  }

  /** A line in no category leaves every list as it was. */
  lemma UnmatchedLineDropped(lines: seq<string>, line: string)
    requires Classify(line) == None
    ensures forall c :: Bucket(lines + [line], c) == Bucket(lines, c)
    ensures Dropped(lines + [line]) == Dropped(lines) + [line]
  {
    var l := lines + [line];
    assert forall k :: Collected(l, |lines|, k) == Collected(lines, |lines|, k) by {
      forall k ensures Collected(l, |lines|, k) == Collected(lines, |lines|, k) {
        CollectedPrefix(l, lines, |lines|, k);
      }
    }
  }

  /** Only the first `n` lines matter to what is collected from them. */
  lemma {:induction false} CollectedPrefix(a: seq<string>, b: seq<string>, n: nat, k: Option<Category>)
    requires n <= |a| && n <= |b| && a[..n] == b[..n]
    ensures Collected(a, n, k) == Collected(b, n, k)
  {
    if n > 0 {
      assert a[n - 1] == a[..n][n - 1] == b[..n][n - 1] == b[n - 1];
      assert a[..n - 1] == a[..n][..n - 1] == b[..n][..n - 1] == b[..n - 1];
      CollectedPrefix(a, b, n - 1, k);
    }
  }

  /** std::optional of the first element, or nothing for an empty list
      (GetFront in src/main.cpp). */
  function GetFront(parts: seq<string>): (r: Option<string>)
    ensures r.None? <==> parts == []
    ensures r.Some? ==> r.value == parts[0]
  {
    if parts == [] then None else Some(parts[0])
  }

  /** The random numbers std::shuffle draws for a list: at step i an index in
      [0, i]. */
  predicate ShuffleDrawsFit(parts: seq<string>, draws: seq<nat>) {
    |draws| == |parts| && forall i :: 0 <= i < |draws| ==> draws[i] <= i
  }

  /** std::shuffle as libstdc++ implements it: step i swaps element i with
      the element at the index drawn in [0, i]. */
  method ShuffleList(parts: seq<string>, draws: seq<nat>) returns (r: seq<string>)
    requires ShuffleDrawsFit(parts, draws)
    ensures |r| == |parts|
    ensures multiset(r) == multiset(parts)
  {
    r := parts;
    var i := 0;
    while i < |r|
      invariant 0 <= i <= |r| == |parts|
      invariant multiset(r) == multiset(parts)
    {
      var j := draws[i];
      r := r[i := r[j]][j := r[i]];
      i := i + 1;
    }
  }

  /** The draws std::shuffle makes for each of the six lists. */
  datatype ShuffleDraws = ShuffleDraws(
    engine: seq<nat>, fuselage: seq<nat>, cabin: seq<nat>,
    wings: seq<nat>, armour: seq<nat>, weapon: seq<nat>)

  /** Every line of `parts` classifies into `c` and, being a line that
      std::getline yields, holds no line break. */
  ghost predicate AllIn(parts: seq<string>, c: Category) {
    forall x :: x in parts ==> Classify(x) == Some(c) && NoNewline(x)
  }

  /** Reordering a list keeps every line of it in its category. */
  lemma PermutationKeepsCategory(parts: seq<string>, r: seq<string>, c: Category)
    requires AllIn(parts, c) && multiset(r) == multiset(parts)
    ensures AllIn(r, c)
  {
    forall x | x in r ensures Classify(x) == Some(c) && NoNewline(x) {
      assert x in multiset(r);
    }
  }

  function Min(a: nat, b: nat): nat {
    if a <= b then a else b
  }

  class SpaceshipParts {
    var engineParts: seq<string>
    var fuselageParts: seq<string>
    var cabinParts: seq<string>
    var wingsParts: seq<string>
    var armourParts: seq<string>
    var weaponParts: seq<string>

    /** The list of category `c`. */
    function List(c: Category): seq<string>
      reads this
    {
      match c
      case Engine => engineParts
      case Fuselage => fuselageParts
      case Cabin => cabinParts
      case Wings => wingsParts
      case Armour => armourParts
      case Weapon => weaponParts
    }

    /** Every list holds only single lines that classify into its category. */
    ghost predicate Valid()
      reads this
    {
      && AllIn(engineParts, Engine) && AllIn(fuselageParts, Fuselage)
      && AllIn(cabinParts, Cabin) && AllIn(wingsParts, Wings)
      && AllIn(armourParts, Armour) && AllIn(weaponParts, Weapon)
    }

    constructor ()
      ensures Valid()
      ensures forall c :: List(c) == []
    {
      engineParts, fuselageParts, cabinParts := [], [], [];
      wingsParts, armourParts, weaponParts := [], [], [];
    }

    /** The body of ReadFromFile's loop: one line goes to the first list,
        in priority order, whose keyword it contains, or nowhere. */
    method AddLine(line: string)
      requires Valid() && NoNewline(line)
      modifies this
      ensures Valid()
      ensures engineParts == old(engineParts) + (if Classify(line) == Some(Engine) then [line] else [])
      ensures fuselageParts == old(fuselageParts) + (if Classify(line) == Some(Fuselage) then [line] else [])
      ensures cabinParts == old(cabinParts) + (if Classify(line) == Some(Cabin) then [line] else [])
      ensures wingsParts == old(wingsParts) + (if Classify(line) == Some(Wings) then [line] else [])
      ensures armourParts == old(armourParts) + (if Classify(line) == Some(Armour) then [line] else [])
      ensures weaponParts == old(weaponParts) + (if Classify(line) == Some(Weapon) then [line] else [])
    {
      ClassifyCascade(line);
      if Contains(line, "engine") {
        engineParts := engineParts + [line];
      } else if Contains(line, "fuselage") {
        fuselageParts := fuselageParts + [line];
      } else if Contains(line, "cabin") {
        cabinParts := cabinParts + [line];
      } else if Contains(line, "wings") {
        wingsParts := wingsParts + [line];
      } else if Contains(line, "armor") {
        armourParts := armourParts + [line];
      } else if Contains(line, "weapon") {
        weaponParts := weaponParts + [line];
      }
    }

    /** ReadFromFile: `file` holds the lines std::getline yields (none of
        which holds a line break), or None when the file cannot be opened;
        `loaded` tells which of the two console messages is printed. */
    method ReadFromFile(file: Option<seq<string>>) returns (loaded: bool)
      requires Valid()
      requires file.Some? ==> forall l :: l in file.value ==> NoNewline(l)
      modifies this
      ensures Valid()
      ensures loaded <==> file.Some?
      ensures file.None? ==> forall c :: List(c) == old(List(c))
      ensures file.Some? ==> forall c :: List(c) == old(List(c)) + Bucket(file.value, c)
    {
      match file
      case None =>
        loaded := false;
      case Some(lines) =>
        var i := 0;
        while i < |lines|
          invariant 0 <= i <= |lines|
          invariant Valid()
          invariant engineParts == old(engineParts) + Collected(lines, i, Some(Engine))
          invariant fuselageParts == old(fuselageParts) + Collected(lines, i, Some(Fuselage))
          invariant cabinParts == old(cabinParts) + Collected(lines, i, Some(Cabin))
          invariant wingsParts == old(wingsParts) + Collected(lines, i, Some(Wings))
          invariant armourParts == old(armourParts) + Collected(lines, i, Some(Armour))
          invariant weaponParts == old(weaponParts) + Collected(lines, i, Some(Weapon))
        {
          CollectedAppend(old(engineParts), lines, i, Engine);
          CollectedAppend(old(fuselageParts), lines, i, Fuselage);
          CollectedAppend(old(cabinParts), lines, i, Cabin);
          CollectedAppend(old(wingsParts), lines, i, Wings);
          CollectedAppend(old(armourParts), lines, i, Armour);
          CollectedAppend(old(weaponParts), lines, i, Weapon);
          AddLine(lines[i]);
          i := i + 1;
        }
        forall c ensures List(c) == old(List(c)) + Bucket(lines, c) {
          match c
          case Engine =>
          case Fuselage =>
          case Cabin =>
          case Wings =>
          case Armour =>
          case Weapon =>
        }
        loaded := true;
    }

    /** Shuffle: each list is reordered on its own; none changes its
        contents or length and nothing moves between lists. */
    method Shuffle(draws: ShuffleDraws)
      requires Valid()
      requires ShuffleDrawsFit(engineParts, draws.engine) && ShuffleDrawsFit(fuselageParts, draws.fuselage)
      requires ShuffleDrawsFit(cabinParts, draws.cabin) && ShuffleDrawsFit(wingsParts, draws.wings)
      requires ShuffleDrawsFit(armourParts, draws.armour) && ShuffleDrawsFit(weaponParts, draws.weapon)
      modifies this
      ensures Valid()
      ensures |engineParts| == |old(engineParts)| && multiset(engineParts) == multiset(old(engineParts))
      ensures |fuselageParts| == |old(fuselageParts)| && multiset(fuselageParts) == multiset(old(fuselageParts))
      ensures |cabinParts| == |old(cabinParts)| && multiset(cabinParts) == multiset(old(cabinParts))
      ensures |wingsParts| == |old(wingsParts)| && multiset(wingsParts) == multiset(old(wingsParts))
      ensures |armourParts| == |old(armourParts)| && multiset(armourParts) == multiset(old(armourParts))
      ensures |weaponParts| == |old(weaponParts)| && multiset(weaponParts) == multiset(old(weaponParts))
    {
      var e := ShuffleList(engineParts, draws.engine);
      PermutationKeepsCategory(engineParts, e, Engine);
      engineParts := e;
      var f := ShuffleList(fuselageParts, draws.fuselage);
      PermutationKeepsCategory(fuselageParts, f, Fuselage);
      fuselageParts := f;
      var cb := ShuffleList(cabinParts, draws.cabin);
      PermutationKeepsCategory(cabinParts, cb, Cabin);
      cabinParts := cb;
      var w := ShuffleList(wingsParts, draws.wings);
      PermutationKeepsCategory(wingsParts, w, Wings);
      wingsParts := w;
      var a := ShuffleList(armourParts, draws.armour);
      PermutationKeepsCategory(armourParts, a, Armour);
      armourParts := a;
      var wp := ShuffleList(weaponParts, draws.weapon);
      PermutationKeepsCategory(weaponParts, wp, Weapon);
      weaponParts := wp;
    }

    /** GetEngine: the first engine part, or "N/A" when there is none. */
    function GetEngine(): (r: string)
      reads this
      ensures engineParts == [] ==> r == "N/A"
      ensures engineParts != [] ==> r == engineParts[0]
      ensures Valid() && engineParts != [] ==> Classify(r) == Some(Engine)
      ensures Valid() ==> NoNewline(r)
    {
      GetFront(engineParts).GetOr("N/A")
    }

    /** GetFuselage: the first fuselage part, or "N/A" when there is none. */
    function GetFuselage(): (r: string)
      reads this
      ensures fuselageParts == [] ==> r == "N/A"
      ensures fuselageParts != [] ==> r == fuselageParts[0]
      ensures Valid() && fuselageParts != [] ==> Classify(r) == Some(Fuselage)
      ensures Valid() ==> NoNewline(r)
    {
      GetFront(fuselageParts).GetOr("N/A")
    }

    /** GetCabin: the first cabin part, or "N/A" when there is none. */
    function GetCabin(): (r: string)
      reads this
      ensures cabinParts == [] ==> r == "N/A"
      ensures cabinParts != [] ==> r == cabinParts[0]
      ensures Valid() && cabinParts != [] ==> Classify(r) == Some(Cabin)
      ensures Valid() ==> NoNewline(r)
    {
      GetFront(cabinParts).GetOr("N/A")
    }

    /** GetArmour: the first armour part, or "N/A" when there is none. */
    function GetArmour(): (r: string)
      reads this
      ensures armourParts == [] ==> r == "N/A"
      ensures armourParts != [] ==> r == armourParts[0]
      ensures Valid() && armourParts != [] ==> Classify(r) == Some(Armour)
      ensures Valid() ==> NoNewline(r)
    {
      GetFront(armourParts).GetOr("N/A")
    }

    /** GetWing, given the number `selection` drawn in [0, size]: drawing the
        size itself means no wing. */
    function GetWing(selection: nat): (r: Option<string>)
      reads this
      requires selection <= |wingsParts|
      ensures r.None? <==> selection == |wingsParts|
      ensures r.Some? ==> r.value == wingsParts[selection]
      ensures wingsParts == [] ==> r.None?
      ensures Valid() && r.Some? ==> Classify(r.value) == Some(Wings) && NoNewline(r.value)
    {
      if selection == |wingsParts| then None else Some(wingsParts[selection])
    }

    /** GetWeapons, given the count `drawn` in [0, 4]: the first
        min(drawn, size) weapon parts. */
    function GetWeapons(drawn: nat): (r: seq<string>)
      reads this
      requires drawn <= 4
      ensures |r| == Min(drawn, |weaponParts|)
      ensures r == weaponParts[..|r|]
      ensures |r| <= 4 && |r| <= |weaponParts|
      ensures weaponParts == [] ==> r == []
      ensures Valid() ==> forall w :: w in r ==> Classify(w) == Some(Weapon) && NoNewline(w)
    {
      var numWeapons := Min(drawn, |weaponParts|);
      weaponParts[..numWeapons]
    }
  }
}
