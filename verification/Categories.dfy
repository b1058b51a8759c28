/** Areas of government and the agendas written over them (common/blockchain/categories.py). */
module Categories {
  import opened Wrappers
  import opened Text

  const VALID_CATEGORIES: seq<string> := [
    "economia", "salud", "educacion", "seguridad", "ambiente", "infraestructura", "derechos", "general"]

  const DEFAULT_CATEGORY: string := "general"

  /** What str.strip() removes. */
  predicate IsSpace(c: char) {
    var n := c as int;
    || 9 <= n <= 13 || 28 <= n <= 32 || n == 0x85 || n == 0xA0 || n == 0x1680 || 0x2000 <= n <= 0x200A
    || n == 0x2028 || n == 0x2029 || n == 0x202F || n == 0x205F || n == 0x3000
  }

  function StripLeft(s: string): string {
    if s != "" && IsSpace(s[0]) then StripLeft(s[1..]) else s
  }

  function StripRight(s: string): string {
    if s != "" && IsSpace(s[|s| - 1]) then StripRight(s[..|s| - 1]) else s
  }

  /** Letters that lower() turns into the letters of a slug: only the ASCII ones matter here. */
  function LowerChar(c: char): char {
    if 'A' <= c <= 'Z' then 'a' + (c - 'A') else c
  }

  function Lower(s: string): string {
    seq(|s|, i requires 0 <= i < |s| => LowerChar(s[i]))
  }

  /** str(raw).strip().lower() */
  function Slug(s: string): string {
    Lower(StripRight(StripLeft(s)))
  }

  predicate LowerLetters(s: string) {
    s != "" && forall i :: 0 <= i < |s| ==> 'a' <= s[i] <= 'z'
  }

  lemma ValidAreLetters()
    ensures forall i :: 0 <= i < |VALID_CATEGORIES| ==> LowerLetters(VALID_CATEGORIES[i])
  {
    assert LowerLetters("economia") && LowerLetters("salud") && LowerLetters("educacion");
    assert LowerLetters("seguridad") && LowerLetters("ambiente") && LowerLetters("infraestructura");
    assert LowerLetters("derechos") && LowerLetters("general");
  }

  lemma SlugOfLetters(s: string)
    requires LowerLetters(s)
    ensures Slug(s) == s && ',' !in s
  {
    assert !IsSpace(s[0]) && !IsSpace(s[|s| - 1]);
    assert Lower(s) == s;
  }

  /** A slug the system knows is in normal form already. */
  lemma SlugOfValid(s: string)
    requires s in VALID_CATEGORIES
    ensures Slug(s) == s && s != "" && ',' !in s
  {
    ValidAreLetters();
    SlugOfLetters(s);
  }

  /** normalize_category: the tolerant reading. Anything unknown is "general". */
  function NormalizeCategory(raw: Option<string>): (c: string)
    ensures c in VALID_CATEGORIES
  {
    if raw.None? || raw.value == "" then DEFAULT_CATEGORY
    else if Slug(raw.value) in VALID_CATEGORIES then Slug(raw.value)
    else DEFAULT_CATEGORY
  }

  /** Reading a category that was already read changes nothing, so a law, its window and the challenge agree. */
  lemma NormalizeIdempotent(raw: Option<string>)
    ensures NormalizeCategory(Some(NormalizeCategory(raw))) == NormalizeCategory(raw)
  {
    SlugOfValid(NormalizeCategory(raw));
  }

  datatype CategoryError = UnknownCategory

  /** validate_category: the strict reading of a proposal. */
  function ValidateCategory(raw: Option<string>): Result<string, CategoryError> {
    if raw.None? || StripRight(StripLeft(raw.value)) == "" then Success(DEFAULT_CATEGORY)
    else if Slug(raw.value) in VALID_CATEGORIES then Success(Slug(raw.value))
    else Failure(UnknownCategory)
  }

  /** What a proposal is accepted with is what every later reading of it gives. */
  lemma ValidatedIsNormal(raw: Option<string>)
    ensures ValidateCategory(raw).Success? ==>
      && NormalizeCategory(raw) == ValidateCategory(raw).value
      && NormalizeCategory(Some(ValidateCategory(raw).value)) == ValidateCategory(raw).value
  {
    SlugOfValid(NormalizeCategory(raw));
    SlugOfValid(DEFAULT_CATEGORY);
    if raw.Some? && StripRight(StripLeft(raw.value)) == "" {
      assert Slug(raw.value) == "";
      assert "" !in VALID_CATEGORIES;
    }
  }

  // ---- agendas ----

  /** A selection of categories as it travels: missing, comma-separated text, or a list. */
  datatype Selection = Absent | Joined(text: string) | Items(items: seq<string>)

  /** text.split(",") */
  function Split(s: string): (parts: seq<string>)
    ensures |parts| > 0
    decreases |s|
  {
    var k := IndexFrom(s, ',', 0);
    if k == |s| then [s] else [s[..k]] + Split(s[k + 1..])
  }

  /** ",".join(parts) */
  function Join(parts: seq<string>): string {
    if |parts| == 0 then "" else if |parts| == 1 then parts[0] else parts[0] + "," + Join(parts[1..])
  }

  function ItemsOf(raw: Selection): seq<string> {
    match raw
    case Absent => []
    case Joined(text) => Split(text)
    case Items(items) => items
  }

  predicate Selected(items: seq<string>, c: string) {
    exists i :: 0 <= i < |items| && Slug(items[i]) == c
  }

  function Chosen(items: seq<string>, n: nat): seq<string>
    requires n <= |VALID_CATEGORIES|
  {
    if n == 0 then []
    else if Selected(items, VALID_CATEGORIES[n - 1]) then Chosen(items, n - 1) + [VALID_CATEGORIES[n - 1]]
    else Chosen(items, n - 1)
  }

  /** parse_categories: the known categories of a selection, in canonical order. */
  function ParseCategories(raw: Selection): seq<string> {
    Chosen(ItemsOf(raw), |VALID_CATEGORIES|)
  }

  lemma {:induction false} ChosenMember(items: seq<string>, n: nat, c: string)
    requires n <= |VALID_CATEGORIES|
    ensures c in Chosen(items, n) <==> c in VALID_CATEGORIES[..n] && Selected(items, c)
  {
    if n > 0 {
      ChosenMember(items, n - 1, c);
      assert VALID_CATEGORIES[..n] == VALID_CATEGORIES[..n - 1] + [VALID_CATEGORIES[n - 1]];
    }
  }

  /** A category is on the parsed agenda exactly when it is known and was selected. */
  lemma AgendaMember(raw: Selection, c: string)
    ensures c in ParseCategories(raw) <==> c in VALID_CATEGORIES && Selected(ItemsOf(raw), c)
  {
    ChosenMember(ItemsOf(raw), |VALID_CATEGORIES|, c);
    assert VALID_CATEGORIES[..|VALID_CATEGORIES|] == VALID_CATEGORIES;
  }

  lemma {:induction false} ChosenDepends(a: seq<string>, b: seq<string>, n: nat)
    requires n <= |VALID_CATEGORIES|
    requires forall c :: c in VALID_CATEGORIES ==> (Selected(a, c) <==> Selected(b, c))
    ensures Chosen(a, n) == Chosen(b, n)
  {
    if n > 0 {
      ChosenDepends(a, b, n - 1);
      assert VALID_CATEGORIES[n - 1] in VALID_CATEGORIES;
    }
  }

  /** A list of known categories selects exactly its members. */
  lemma SelectedOfKnown(items: seq<string>, c: string)
    requires forall i :: 0 <= i < |items| ==> items[i] in VALID_CATEGORIES
    ensures Selected(items, c) <==> c in items
  {
    forall i | 0 <= i < |items| ensures Slug(items[i]) == items[i] {
      SlugOfValid(items[i]);
    }
    if c in items {
      var i :| 0 <= i < |items| && items[i] == c;
      assert Slug(items[i]) == c;
    }
  }

  lemma {:induction false} SplitJoin(parts: seq<string>)
    requires |parts| > 0
    requires forall i :: 0 <= i < |parts| ==> ',' !in parts[i]
    ensures Split(Join(parts)) == parts
  {
    var s := Join(parts);
    var k := IndexFrom(s, ',', 0);
    if |parts| == 1 {
      assert k == |s|;
    } else {
      assert s == parts[0] + ("," + Join(parts[1..]));
      assert s[|parts[0]|] == ',';
      assert forall j :: 0 <= j < |parts[0]| ==> s[j] == parts[0][j] && parts[0][j] in parts[0];
      assert k == |parts[0]|;
      assert s[..k] == parts[0] && s[k + 1..] == Join(parts[1..]);
      SplitJoin(parts[1..]);
    }
  }

  /** An agenda survives being written to Redis as comma-separated text and being parsed again, as a list or
      as text: two teams with one agenda have one representation. */
  lemma AgendaRoundTrip(raw: Selection)
    ensures ParseCategories(Items(ParseCategories(raw))) == ParseCategories(raw)
    ensures ParseCategories(Joined(Join(ParseCategories(raw)))) == ParseCategories(raw)
  {
    var agenda := ParseCategories(raw);
    forall i | 0 <= i < |agenda| ensures agenda[i] in VALID_CATEGORIES && ',' !in agenda[i] {
      AgendaMember(raw, agenda[i]);
      SlugOfValid(agenda[i]);
    }
    forall c | c in VALID_CATEGORIES ensures Selected(agenda, c) <==> Selected(ItemsOf(raw), c) {
      SelectedOfKnown(agenda, c);
      AgendaMember(raw, c);
    }
    ChosenDepends(agenda, ItemsOf(raw), |VALID_CATEGORIES|);
    if agenda != [] {
      SplitJoin(agenda);
    } else {
      assert Split("") == [""];
      forall c | c in VALID_CATEGORIES ensures !Selected([""], c) {
        SlugOfValid(c);
        assert Slug("") == "";
      }
      ChosenDepends([""], agenda, |VALID_CATEGORIES|);
    }
  }

  /** covers_category: an empty agenda covers everything. */
  predicate CoversCategory(selected: Selection, category: Option<string>) {
    var agenda := ParseCategories(selected);
    agenda == [] || NormalizeCategory(category) in agenda
  }

  /** The answer depends only on the parsed agenda and on the normalised category. */
  lemma CoversIsSyntaxFree(selected: Selection, category: Option<string>)
    ensures CoversCategory(Items(ParseCategories(selected)), Some(NormalizeCategory(category)))
         == CoversCategory(selected, category)
  {
    AgendaRoundTrip(selected);
    NormalizeIdempotent(category);
  }
}
