/**
 * The command language of src/parser.rs: one statement per line, a keyword
 * followed by a parenthesised, comma-separated argument list.
 */
module Parser {
  import opened Wrappers
  import opened Decimal
  import opened ParserBasics
  import opened SearchKeys
  import Users = UserDistances
  import Items = ItemDistances

  datatype Database = Books | Shelves | SimpleMovie | MovieLens | MovieLensSmall

  /** `Display for Database`: the name is one `connect` can read as an identifier. */
  function DatabaseName(d: Database): (name: string)
    ensures IsIdent(name)
  {
    match d
    case Books => "books"
    case Shelves => "shelves"
    case SimpleMovie => "simple-movie"
    case MovieLens => "movie-lens"
    case MovieLensSmall => "movie-lens-small"
  }

  /** `From<&str> for Database`; `None` stands for the `unreachable!` panic on any other name. */
  function DatabaseFrom(s: string): (r: Option<Database>)
    ensures r.Some? ==> DatabaseName(r.value) == s
  {
    if s == "books" then Some(Books)
    else if s == "shelves" then Some(Shelves)
    else if s == "simple-movie" then Some(SimpleMovie)
    else if s == "movie-lens" then Some(MovieLens)
    else if s == "movie-lens-small" then Some(MovieLensSmall)
    else None
  }

  /** Every database is read back from its name, and every name is an identifier. */
  lemma DatabaseRoundTrip(d: Database)
    ensures DatabaseFrom(DatabaseName(d)) == Some(d)
    ensures IsIdent(DatabaseName(d))
  {
    var name := DatabaseName(d);
    forall i | 0 <= i < |name|
      ensures IsIdentChar(name[i])
    {
    }
  }

  datatype Statement =
    | Connect(database: Database)
    | QueryUser(user: SearchBy)
    | QueryItem(item: SearchBy)
    | QueryRatings(user: SearchBy)
    | UserDistance(userA: SearchBy, userB: SearchBy, userMethod: Users.Method)
    | ItemDistance(itemA: SearchBy, itemB: SearchBy, itemMethod: Items.Method)
    | UserKnn(k: nat, user: SearchBy, userMethod: Users.Method, chunkSize: Option<nat>)
    | UserBasedPredict(k: nat, user: SearchBy, item: SearchBy, userMethod: Users.Method, chunkSize: Option<nat>)
    | ItemBasedPredict(user: SearchBy, item: SearchBy, itemMethod: Items.Method, chunk: nat)
    | EnterMatrix(m: nat, n: nat, itemMethod: Items.Method)
    | MatrixGet(itemA: SearchBy, itemB: SearchBy)
    | MatrixMoveTo(i: nat, j: nat)
    | InsertUser
    | InsertItem
    | InsertRating(user: SearchBy, item: SearchBy, score: real)
    | UpdateRating(user: SearchBy, item: SearchBy, score: real)
    | RemoveRating(user: SearchBy, item: SearchBy)

  /** What code that may panic does: return a value, or panic. */
  datatype Aborting<T> = Returns(value: T) | Panics

  /** nom's `tag`: the input must start with `t`. */
  function Tag(t: string, input: string): (r: Parsed<string>)
    ensures r.Done? <==> t <= input
    ensures r.Done? ==> r.value == t && input == t + r.rest
  {
    if t <= input then
      assert input == t + input[|t|..];
      Done(t, input[|t|..])
    else Failed
  }

  lemma TagOf(t: string, rest: string)
    ensures Tag(t, t + rest) == Done(t, rest)
  {
    assert t <= t + rest;
    assert (t + rest)[|t|..] == rest;
  }

  /** nom's `alt` over tags, each paired with what it stands for: the first pair whose tag starts the input. */
  function FirstTag<T>(tags: seq<(string, T)>, input: string): (r: Option<(string, T)>)
    ensures r.Some? ==> r.value in tags && r.value.0 <= input
    ensures r.None? ==> forall p :: p in tags ==> !(p.0 <= input)
  {
    if tags == [] then None
    else if tags[0].0 <= input then Some(tags[0])
    else
      assert tags == [tags[0]] + tags[1..];
      FirstTag(tags[1..], input)
  }

  /** A tag that disagrees with the input at some position does not start it. */
  lemma NotPrefixAt(t: string, input: string, i: nat)
    requires i < |t| && i < |input| && t[i] != input[i]
    ensures !(t <= input)
  {
  }

  /** The `i`-th tag is found whatever follows it, once every earlier tag is known not to start the input. */
  lemma {:induction false} FirstTagOf<T>(tags: seq<(string, T)>, i: nat, rest: string)
    requires i < |tags|
    requires forall j :: 0 <= j < i ==> !(tags[j].0 <= tags[i].0 + rest)
    ensures FirstTag(tags, tags[i].0 + rest) == Some(tags[i])
  {
    if i > 0 {
      assert !(tags[0].0 <= tags[i].0 + rest);
      FirstTagOf(tags[1..], i - 1, rest);
    }
  }

  /**
   * The `i`-th tag is found whatever follows it when each earlier tag differs
   * from it at the position `d` gives for that tag.
   */
  lemma TagFound<T>(tags: seq<(string, T)>, i: nat, rest: string, d: seq<nat>)
    requires i < |tags| && |d| == i
    requires forall j :: 0 <= j < i ==> d[j] < |tags[j].0| && d[j] < |tags[i].0| && tags[j].0[d[j]] != tags[i].0[d[j]]
    ensures FirstTag(tags, tags[i].0 + rest) == Some(tags[i])
  {
    var s := tags[i].0 + rest;
    forall j | 0 <= j < i
      ensures !(tags[j].0 <= s)
    {
      NotPrefixAt(tags[j].0, s, d[j]);
    }
    FirstTagOf(tags, i, rest);
  }

  /** `delimited(char('('), parse_int, char(')'))` after `minkowski`. */
  function ParseOrder(input: string): (r: Parsed<nat>)
    ensures r.Done? ==> r.value <= I64_MAX
  {
    match Tag("(", input)
    case Failed => Failed
    case Done(_, r1) =>
      match ParseNumber(r1)
      case Failed => Failed
      case Done(p, r2) =>
        match Tag(")", r2)
        case Failed => Failed
        case Done(_, r3) => Done(p, r3)
  }

  /** The user-method tags, in the order `parse_user_method` tries them; `minkowski`'s order is read after its tag. */
  const UserMethodTags: seq<(string, Users.Method)> := [
    ("cosine", Users.CosineSimilarity), ("pearson_c", Users.PearsonCorrelation),
    ("pearson_a", Users.PearsonApproximation), ("euclidean", Users.Euclidean), ("manhattan", Users.Manhattan),
    ("minkowski", Users.Minkowski(0)), ("jacc_index", Users.JaccardIndex), ("jacc_distance", Users.JaccardDistance)]

  /** `parse_user_method`. */
  function ParseUserMethod(input: string): (r: Parsed<Users.Method>)
    ensures (forall p :: p in UserMethodTags ==> !(p.0 <= input)) ==> r.Failed?
    ensures r.Done? && r.value.Minkowski? ==> r.value.p <= I64_MAX
  {
    match FirstTag(UserMethodTags, input)
    case None => Failed
    case Some((t, m)) =>
      var rest := input[|t|..];
      if m.Minkowski? then
        match ParseOrder(rest)
        case Failed => Failed
        case Done(p, r) => Done(Users.Minkowski(p), r)
      else Done(m, rest)
  }

  /** How a user method is written in a statement. */
  function UserMethodText(m: Users.Method): string {
    match m
    case CosineSimilarity => "cosine"
    case PearsonCorrelation => "pearson_c"
    case PearsonApproximation => "pearson_a"
    case Euclidean => "euclidean"
    case Manhattan => "manhattan"
    case Minkowski(p) => "minkowski(" + Show(p) + ")"
    case JaccardIndex => "jacc_index"
    case JaccardDistance => "jacc_distance"
  }

  /** The tag of every user method is found in its text, whatever follows. */
  lemma UserMethodTagOf(m: Users.Method, rest: string)
    ensures FirstTag(UserMethodTags, UserMethodText(m) + rest) == Some(UserMethodTags[UserMethodIndex(m)])
  {
    match m
    case CosineSimilarity => TagFound(UserMethodTags, 0, rest, []);
    case PearsonCorrelation => TagFound(UserMethodTags, 1, rest, [0]);
    case PearsonApproximation => TagFound(UserMethodTags, 2, rest, [0, 8]);
    case Euclidean => TagFound(UserMethodTags, 3, rest, [0, 0, 0]);
    case Manhattan => TagFound(UserMethodTags, 4, rest, [0, 0, 0, 0]);
    case Minkowski(p) =>
      var after := "(" + Show(p) + ")" + rest;
      assert UserMethodText(m) + rest == "minkowski" + after;
      TagFound(UserMethodTags, 5, after, [0, 0, 0, 0, 1]);
    case JaccardIndex => TagFound(UserMethodTags, 6, rest, [0, 0, 0, 0, 0, 0]);
    case JaccardDistance => TagFound(UserMethodTags, 7, rest, [0, 0, 0, 0, 0, 0, 5]);
  }

  /** The position of a user method's tag. */
  function UserMethodIndex(m: Users.Method): (i: nat)
    ensures i < |UserMethodTags|
  {
    match m
    case CosineSimilarity => 0
    case PearsonCorrelation => 1
    case PearsonApproximation => 2
    case Euclidean => 3
    case Manhattan => 4
    case Minkowski(_) => 5
    case JaccardIndex => 6
    case JaccardDistance => 7
  }

  /** Every user method is read back from its text, whatever follows; the order must fit an `i64`. */
  lemma ParseUserMethodOf(m: Users.Method, rest: string)
    requires m.Minkowski? ==> m.p <= I64_MAX
    ensures ParseUserMethod(UserMethodText(m) + rest) == Done(m, rest)
  {
    var s := UserMethodText(m) + rest;
    UserMethodTagOf(m, rest);
    if m.Minkowski? {
      var p := m.p;
      var r2 := ")" + rest;
      var r1 := Show(p) + r2;
      var order := "(" + r1;
      MinkowskiText(p, rest);
      assert ParseOrder(order) == Done(p, rest) by {
        assert Tag("(", order) == Done("(", r1) by { TagOf("(", r1); }
        assert ParseNumber(r1) == Done(p, r2) by { ParseNumberOf(p, r2); }
        assert Tag(")", r2) == Done(")", rest) by { TagOf(")", rest); }
      }
    } else {
      assert s[|UserMethodText(m)|..] == rest;
    }
  }

  /** After the `minkowski` tag comes the order in parentheses. */
  lemma MinkowskiText(p: nat, rest: string)
    ensures (UserMethodText(Users.Minkowski(p)) + rest)[9..] == "(" + (Show(p) + (")" + rest))
  {
    assert "minkowski(" == "minkowski" + "(";
    Regroup("minkowski", "(", Show(p), ")", rest);
    assert |"minkowski"| == 9;
  }

  /** The item-method tags, in the order `parse_item_method` tries them. */
  const ItemMethodTags: seq<(string, Items.Method)> := [("slope_one", Items.SlopeOne), ("adj_cosine", Items.AdjCosine)]

  /** `parse_item_method`: only `slope_one` and `adj_cosine`. */
  function ParseItemMethod(input: string): (r: Parsed<Items.Method>)
    ensures r.Done? <==> "slope_one" <= input || "adj_cosine" <= input
  {
    match FirstTag(ItemMethodTags, input)
    case None =>
      assert ("slope_one", Items.SlopeOne) in ItemMethodTags && ("adj_cosine", Items.AdjCosine) in ItemMethodTags;
      Failed
    case Some((t, m)) => Done(m, input[|t|..])
  }

  function ItemMethodText(m: Items.Method): string {
    match m
    case SlopeOne => "slope_one"
    case AdjCosine => "adj_cosine"
  }

  /** Both item methods are read back from their text, whatever follows. */
  lemma ParseItemMethodOf(m: Items.Method, rest: string)
    ensures ParseItemMethod(ItemMethodText(m) + rest) == Done(m, rest)
  {
    var s := ItemMethodText(m) + rest;
    match m
    case SlopeOne =>
      FirstTagOf(ItemMethodTags, 0, rest);
    case AdjCosine =>
      assert s[0] == 'a';
      FirstTagOf(ItemMethodTags, 1, rest);
  }

  /** The key `parse_searchby` builds from an identifier and a value. */
  function KeyOf(ident: string, value: string): (sb: SearchBy)
    ensures sb.Key() == ident && sb.Val() == value
    ensures sb.Custom? <==> ident != "id" && ident != "name"
  {
    if ident == "id" then Id(value)
    else if ident == "name" then Name(value)
    else Custom(ident, value)
  }

  /** The pieces `parse_searchby` reads, put back together. */
  lemma Enclosed(input: string, ident: string, r1: string, r2: string, value: string, r3: string, r4: string)
    requires input == ident + r1 && r1 == "(" + r2 && r2 == "'" + value + "'" + r3 && r3 == ")" + r4
    ensures input == ident + "('" + value + "')" + r4
  {
  }

  /** `parse_searchby`: an identifier, then a quoted value in parentheses. */
  function ParseSearchBy(input: string): (r: Parsed<SearchBy>)
    ensures r.Done? ==> KeyOk(r.value) && input == KeyText(r.value) + r.rest
  {
    match ParseIdent(input)
    case Failed => Failed
    case Done(ident, r1) =>
      match Tag("(", r1)
      case Failed => Failed
      case Done(_, r2) =>
        match ParseString(r2)
        case Failed => Failed
        case Done(value, r3) =>
          match Tag(")", r3)
          case Failed => Failed
          case Done(_, r4) =>
            Enclosed(input, ident, r1, r2, value, r3, r4);
            Done(KeyOf(ident, value), r4)
  }

  /** A key with nothing quoted between its parentheses is refused. */
  lemma EmptyKeyFails(ident: string, rest: string)
    requires IsIdent(ident)
    ensures ParseSearchBy(ident + "()" + rest).Failed?
  {
    var r1 := "(" + (")" + rest);
    assert ident + "()" + rest == ident + r1;
    assert ParseIdent(ident + r1) == Done(ident, r1) by { ParseIdentOf(ident, r1); }
    assert Tag("(", r1) == Done("(", ")" + rest) by { TagOf("(", ")" + rest); }
  }

  /** How a key is written in a statement: its identifier and its value quoted in parentheses. */
  function KeyText(sb: SearchBy): string {
    sb.Key() + "('" + sb.Val() + "')"
  }

  /**
   * The keys `parse_searchby` can return: an identifier key, a non-empty value
   * without quotes, and a custom key only for identifiers other than `id` and `name`.
   */
  predicate KeyOk(sb: SearchBy) {
    IsIdent(sb.Key()) && IsQuotable(sb.Val()) && (sb.Custom? ==> sb.key != "id" && sb.key != "name")
  }

  /** Every such key is read back from its text, whatever follows. */
  lemma ParseSearchByOf(sb: SearchBy, rest: string)
    requires KeyOk(sb)
    ensures ParseSearchBy(KeyText(sb) + rest) == Done(sb, rest)
  {
    var r3 := ")" + rest;
    var r2 := "'" + sb.Val() + "'" + r3;
    var r1 := "(" + r2;
    var input := KeyText(sb) + rest;
    assert ParseIdent(input) == Done(sb.Key(), r1) by {
      assert input == sb.Key() + r1;
      ParseIdentOf(sb.Key(), r1);
    }
    assert Tag("(", r1) == Done("(", r2) by { TagOf("(", r2); }
    assert ParseString(r2) == Done(sb.Val(), r3) by { ParseStringOf(sb.Val(), r3); }
    assert Tag(")", r3) == Done(")", rest) by { TagOf(")", rest); }
    assert KeyOf(sb.Key(), sb.Val()) == sb;
  }

  /** The kinds of argument a statement takes. */
  datatype ArgKind = KeyArg | IntArg | UserMethodArg | ItemMethodArg | ScoreArg

  datatype Arg =
    | Key(key: SearchBy)
    | Int(number: nat)
    | UserMethodOf(um: Users.Method)
    | ItemMethodOf(im: Items.Method)
    | Score(score: real)
  {
    function Kind(): ArgKind {
      match this
      case Key(_) => KeyArg
      case Int(_) => IntArg
      case UserMethodOf(_) => UserMethodArg
      case ItemMethodOf(_) => ItemMethodArg
      case Score(_) => ScoreArg
    }
  }

  /** The arguments have the kinds asked for, one for one. */
  predicate Fits(args: seq<Arg>, kinds: seq<ArgKind>) {
    |args| == |kinds| && forall i :: 0 <= i < |args| ==> args[i].Kind() == kinds[i]
  }

  /**
   * One argument. `parse_int` is `parse_number` (its value is never negative,
   * so `as usize` keeps it); `float` stands for `parse_float`, which is not
   * part of this model.
   */
  function ParseArg(kind: ArgKind, input: string, float: string -> Parsed<real>): (r: Parsed<Arg>)
    ensures r.Done? ==> r.value.Kind() == kind
  {
    match kind
    case KeyArg => (match ParseSearchBy(input) case Failed => Failed case Done(v, rest) => Done(Key(v), rest))
    case IntArg => (match ParseNumber(input) case Failed => Failed case Done(v, rest) => Done(Int(v), rest))
    case UserMethodArg =>
      (match ParseUserMethod(input) case Failed => Failed case Done(v, rest) => Done(UserMethodOf(v), rest))
    case ItemMethodArg =>
      (match ParseItemMethod(input) case Failed => Failed case Done(v, rest) => Done(ItemMethodOf(v), rest))
    case ScoreArg => (match float(input) case Failed => Failed case Done(v, rest) => Done(Score(v), rest))
  }

  /** The arguments this model writes back as text: everything the parsers return, except scores. */
  predicate ArgOk(a: Arg) {
    match a
    case Key(sb) => KeyOk(sb)
    case Int(n) => n <= I64_MAX
    case UserMethodOf(m) => m.Minkowski? ==> m.p <= I64_MAX
    case ItemMethodOf(_) => true
    case Score(_) => false
  }

  /** How an argument is written; it never starts with a space. */
  function ArgText(a: Arg): (s: string)
    requires ArgOk(a)
    ensures s != [] && s[0] != ' '
  {
    match a
    case Key(sb) => assert IsIdentChar(sb.Key()[0]); KeyText(sb)
    case Int(n) => Show(n)
    case UserMethodOf(m) => UserMethodText(m)
    case ItemMethodOf(m) => ItemMethodText(m)
  }

  /** Every writable argument is read back from its text; a number must not run into a digit. */
  lemma ParseArgOf(a: Arg, rest: string, float: string -> Parsed<real>)
    requires ArgOk(a) && (a.Int? ==> rest == [] || !IsDigit(rest[0]))
    ensures ParseArg(a.Kind(), ArgText(a) + rest, float) == Done(a, rest)
  {
    match a
    case Key(sb) => ParseSearchByOf(sb, rest);
    case Int(n) => ParseNumberOf(n, rest);
    case UserMethodOf(m) => ParseUserMethodOf(m, rest);
    case ItemMethodOf(m) => ParseItemMethodOf(m, rest);
  }

  predicate AllOk(args: seq<Arg>) {
    forall i :: 0 <= i < |args| ==> ArgOk(args[i])
  }

  /** Arguments written out with `, ` between them. */
  function ArgsText(args: seq<Arg>): (s: string)
    requires |args| > 0 && AllOk(args)
    ensures s != [] && s[0] == ArgText(args[0])[0]
  {
    if |args| == 1 then ArgText(args[0]) else ArgText(args[0]) + (", " + ArgsText(args[1..]))
  }

  /** nom's `tuple` of argument parsers with `parse_separator` between them. */
  function ParseArgs(kinds: seq<ArgKind>, input: string, float: string -> Parsed<real>): (r: Parsed<seq<Arg>>)
    requires |kinds| > 0
    ensures r.Done? ==> Fits(r.value, kinds)
    decreases |kinds|
  {
    match ParseArg(kinds[0], input, float)
    case Failed => Failed
    case Done(a, r1) =>
      if |kinds| == 1 then Done([a], r1)
      else
        match ParseSeparator(r1)
        case Failed => Failed
        case Done(_, r2) =>
          match ParseArgs(kinds[1..], r2, float)
          case Failed => Failed
          case Done(rest, r3) => FitsCons(a, rest, kinds); Done([a] + rest, r3)
  }

  /** One argument of the first kind before arguments of the remaining kinds fits all of them. */
  lemma FitsCons(a: Arg, rest: seq<Arg>, kinds: seq<ArgKind>)
    requires |kinds| > 0 && a.Kind() == kinds[0] && Fits(rest, kinds[1..])
    ensures Fits([a] + rest, kinds)
  {
    assert forall i :: 1 <= i < |kinds| ==> ([a] + rest)[i] == rest[i - 1];
  }

  /** Arguments written with `, ` between them are read back, whatever non-digit follows. */
  lemma {:induction false} ParseArgsOf(kinds: seq<ArgKind>, args: seq<Arg>, rest: string, float: string -> Parsed<real>)
    requires |args| > 0 && Fits(args, kinds) && AllOk(args)
    requires rest == [] || !IsDigit(rest[0])
    ensures ParseArgs(kinds, ArgsText(args) + rest, float) == Done(args, rest)
    decreases |args|
  {
    if |args| == 1 {
      ParseArgOf(args[0], rest, float);
      assert args == [args[0]];
    } else {
      ParseArgsOf(kinds[1..], args[1..], rest, float);
      ParseArgsStep(kinds, args, rest, float);
    }
  }

  /** One more argument in front of arguments already read back. */
  lemma {:induction false} ParseArgsStep(kinds: seq<ArgKind>, args: seq<Arg>, rest: string, float: string -> Parsed<real>)
    requires |args| > 1 && Fits(args, kinds) && AllOk(args)
    requires ParseArgs(kinds[1..], ArgsText(args[1..]) + rest, float) == Done(args[1..], rest)
    ensures ParseArgs(kinds, ArgsText(args) + rest, float) == Done(args, rest)
  {
    var a, more := args[0], args[1..];
    var tail := ArgsText(more) + rest;
    ArgsTextCons(args, rest);
    FirstArgThenSeparator(a, kinds[0], tail, float);
    ParseArgsCons(kinds, ArgsText(args) + rest, float, a, ", " + tail, tail, more, rest);
    HeadThenTail(args);
  }

  /** An argument followed by `, ` and text that does not start with a space: the argument, then one separator. */
  lemma FirstArgThenSeparator(a: Arg, kind: ArgKind, tail: string, float: string -> Parsed<real>)
    requires ArgOk(a) && a.Kind() == kind && (tail == [] || tail[0] != ' ')
    ensures ParseArg(kind, ArgText(a) + (", " + tail), float) == Done(a, ", " + tail)
    ensures ParseSeparator(", " + tail) == Done(",", tail)
  {
    ParseArgOf(a, ", " + tail, float);
    CommaSpace(tail);
  }

  /** A non-empty sequence is its head followed by its tail. */
  lemma HeadThenTail<T>(s: seq<T>)
    requires |s| > 0
    ensures [s[0]] + s[1..] == s
  {
  }

  /** The text of several arguments: the first, `, `, and the text of the others. */
  lemma ArgsTextCons(args: seq<Arg>, rest: string)
    requires |args| > 1 && AllOk(args)
    ensures ArgsText(args) + rest == ArgText(args[0]) + (", " + (ArgsText(args[1..]) + rest))
    ensures (ArgsText(args[1..]) + rest)[0] != ' '
  {
    Associative(ArgText(args[0]), ", ", ArgsText(args[1..]), rest);
  }

  lemma Associative(x: string, y: string, z: string, w: string)
    ensures (x + (y + z)) + w == x + (y + (z + w))
  {
  }

  /** `, ` before text that does not start with a space is one separator. */
  lemma CommaSpace(rest: string)
    requires rest == [] || rest[0] != ' '
    ensures ParseSeparator(", " + rest) == Done(",", rest)
  {
    assert ", " + rest == Blanks(0) + "," + Blanks(1) + rest;
    ParseSeparatorOf(0, 1, rest);
  }

  /** The unfolding of `ParseArgs` for more than one argument. */
  lemma ParseArgsCons(kinds: seq<ArgKind>, input: string, float: string -> Parsed<real>, a: Arg, after: string,
                      tail: string, args: seq<Arg>, rest: string)
    requires |kinds| > 1
    requires ParseArg(kinds[0], input, float) == Done(a, after)
    requires ParseSeparator(after) == Done(",", tail)
    requires ParseArgs(kinds[1..], tail, float) == Done(args, rest)
    ensures ParseArgs(kinds, input, float) == Done([a] + args, rest)
  {
  }

  /** `opt(tuple((parse_separator, parse_int)))`: never fails, and consumes nothing when the pair is absent. */
  function ParseChunkSize(input: string): (r: (Option<nat>, string))
    ensures r.0.None? ==> r.1 == input
  {
    var separator := ParseSeparator(input);
    if separator.Failed? then (None, input)
    else
      var number := ParseNumber(separator.rest);
      if number.Failed? then (None, input) else (Some(number.value as nat), number.rest)
  }

  /** How the optional chunk size is written: nothing, or `, ` and the number. */
  function ChunkText(chunk: Option<nat>): string {
    match chunk
    case None => ""
    case Some(n) => ", " + Show(n)
  }

  /** Before the closing parenthesis, a written chunk size is read back and an absent one is not invented. */
  lemma ParseChunkSizeOf(chunk: Option<nat>, rest: string)
    requires chunk.Some? ==> chunk.value <= I64_MAX
    ensures ParseChunkSize(ChunkText(chunk) + (")" + rest)) == (chunk, ")" + rest)
  {
    var closing := ")" + rest;
    match chunk
    case None =>
      assert ChunkText(chunk) + closing == closing;
      assert SpanLength(closing, IsSpace) == 0;
    case Some(n) =>
      var after := Show(n) + closing;
      assert ChunkText(chunk) + closing == ", " + after;
      assert ParseSeparator(", " + after) == Done(",", after) by { CommaSpace(after); }
      assert ParseNumber(after) == Done(n, closing) by { ParseNumberOf(n, closing); }
  }

  /** The parenthesised argument list, with the optional trailing chunk size when `optional`. */
  function ParseCall(kinds: seq<ArgKind>, optional: bool, input: string, float: string -> Parsed<real>)
    : (r: Parsed<(seq<Arg>, Option<nat>)>)
    requires |kinds| > 0
    ensures r.Done? ==> Fits(r.value.0, kinds) && (!optional ==> r.value.1.None?)
  {
    match Tag("(", input)
    case Failed => Failed
    case Done(_, r1) =>
      match ParseArgs(kinds, r1, float)
      case Failed => Failed
      case Done(args, r2) =>
        var (chunk, r3) := if optional then ParseChunkSize(r2) else (None, r2);
        match Tag(")", r3)
        case Failed => Failed
        case Done(_, r4) => Done((args, chunk), r4)
  }

  /** A written argument list, with a chunk size only where one is allowed, is read back whatever follows. */
  lemma ParseCallOf(kinds: seq<ArgKind>, optional: bool, args: seq<Arg>, chunk: Option<nat>, rest: string,
                    float: string -> Parsed<real>)
    requires |args| > 0 && Fits(args, kinds) && AllOk(args)
    requires chunk.Some? ==> optional && chunk.value <= I64_MAX
    ensures ParseCall(kinds, optional, CallText(args, chunk) + rest, float) == Done((args, chunk), rest)
  {
    var closing := ")" + rest;
    var r2 := ChunkText(chunk) + closing;
    var r1 := ArgsText(args) + r2;
    CallTextSplit(args, chunk, rest);
    TagOf("(", r1);
    ParseArgsOf(kinds, args, r2, float);
    if optional {
      ParseChunkSizeOf(chunk, rest);
    }
    TagOf(")", rest);
    ParseCallSteps(kinds, optional, "(" + r1, r1, args, r2, chunk, closing, rest, float);
  }

  /** The written call, split where `parse_call` reads it. */
  lemma CallTextSplit(args: seq<Arg>, chunk: Option<nat>, rest: string)
    requires |args| > 0 && AllOk(args)
    ensures CallText(args, chunk) + rest == "(" + (ArgsText(args) + (ChunkText(chunk) + (")" + rest)))
  {
    Regroup("(", ArgsText(args), ChunkText(chunk), ")", rest);
  }

  /** Five strings joined left to right are the same joined right to left. */
  lemma Regroup(a: string, b: string, c: string, d: string, e: string)
    ensures a + b + c + d + e == a + (b + (c + (d + e)))
  {
  }

  /** `parse_call` succeeds when each of its steps does. */
  lemma ParseCallSteps(kinds: seq<ArgKind>, optional: bool, input: string, r1: string, args: seq<Arg>, r2: string,
                       chunk: Option<nat>, r3: string, rest: string, float: string -> Parsed<real>)
    requires |kinds| > 0
    requires Tag("(", input) == Done("(", r1)
    requires ParseArgs(kinds, r1, float) == Done(args, r2)
    requires optional ==> ParseChunkSize(r2) == (chunk, r3)
    requires !optional ==> chunk == None && r3 == r2
    requires Tag(")", r3) == Done(")", rest)
    ensures ParseCall(kinds, optional, input, float) == Done((args, chunk), rest)
  {
  }

  /** A parenthesised argument list with its optional chunk size. */
  function CallText(args: seq<Arg>, chunk: Option<nat>): (s: string)
    requires |args| > 0 && AllOk(args)
  {
    "(" + ArgsText(args) + ChunkText(chunk) + ")"
  }

  /** The statement keywords. */
  datatype Keyword =
    | GetWord | MoveToWord | ConnectWord | UserKnnWord | QueryUserWord | QueryItemWord | InsertUserWord
    | InsertItemWord | EnterMatrixWord | InsertRatingWord | UpdateRatingWord | RemoveRatingWord
    | QueryRatingsWord | UserDistanceWord | ItemDistanceWord | UserBasedPredictWord | ItemBasedPredictWord

  /** The keywords with their tags, in the order `parse_statement` tries them. */
  const Keywords: seq<(string, Keyword)> := [
    ("get", GetWord), ("move_to", MoveToWord), ("connect", ConnectWord), ("user_knn", UserKnnWord),
    ("query_user", QueryUserWord), ("query_item", QueryItemWord), ("insert_user", InsertUserWord),
    ("insert_item", InsertItemWord), ("enter_matrix", EnterMatrixWord), ("insert_rating", InsertRatingWord),
    ("update_rating", UpdateRatingWord), ("remove_rating", RemoveRatingWord), ("query_ratings", QueryRatingsWord),
    ("user_distance", UserDistanceWord), ("item_distance", ItemDistanceWord),
    ("user_based_predict", UserBasedPredictWord), ("item_based_predict", ItemBasedPredictWord)]

  /** The position of a keyword's tag. */
  function KeywordIndex(kw: Keyword): (i: nat)
    ensures i < |Keywords| && Keywords[i].1 == kw
  {
    match kw
    case GetWord => 0
    case MoveToWord => 1
    case ConnectWord => 2
    case UserKnnWord => 3
    case QueryUserWord => 4
    case QueryItemWord => 5
    case InsertUserWord => 6
    case InsertItemWord => 7
    case EnterMatrixWord => 8
    case InsertRatingWord => 9
    case UpdateRatingWord => 10
    case RemoveRatingWord => 11
    case QueryRatingsWord => 12
    case UserDistanceWord => 13
    case ItemDistanceWord => 14
    case UserBasedPredictWord => 15
    case ItemBasedPredictWord => 16
  }

  /** How a keyword is spelled. */
  function Spelling(kw: Keyword): (s: string)
    ensures s != [] && 'a' <= s[0] <= 'z'
  {
    Keywords[KeywordIndex(kw)].0
  }

  /** Every keyword is recognised in its spelling, whatever follows; no earlier keyword starts it. */
  lemma KeywordTagOf(kw: Keyword, rest: string)
    ensures FirstTag(Keywords, Spelling(kw) + rest) == Some((Spelling(kw), kw))
  {
    var i := KeywordIndex(kw);
    if i < 7 {
      KeywordTagOfA(kw, rest);
    } else if i < 11 {
      KeywordTagOfB(kw, rest);
    } else if i < 14 {
      KeywordTagOfC(kw, rest);
    } else if i < 16 {
      KeywordTagOfD(kw, rest);
    } else {
      KeywordTagOfE(rest);
    }
  }

  /** Keywords 0 to 6 are recognised whatever follows. */
  lemma KeywordTagOfA(kw: Keyword, rest: string)
    requires kw == GetWord || kw == MoveToWord || kw == ConnectWord || kw == UserKnnWord || kw == QueryUserWord || kw == QueryItemWord || kw == InsertUserWord
    ensures FirstTag(Keywords, Spelling(kw) + rest) == Some((Spelling(kw), kw))
  {
    if kw == GetWord {
      TagFound(Keywords, 0, rest, []);
    } else if kw == MoveToWord {
      TagFound(Keywords, 1, rest, [0]);
    } else if kw == ConnectWord {
      TagFound(Keywords, 2, rest, [0, 0]);
    } else if kw == UserKnnWord {
      TagFound(Keywords, 3, rest, [0, 0, 0]);
    } else if kw == QueryUserWord {
      TagFound(Keywords, 4, rest, [0, 0, 0, 0]);
    } else if kw == QueryItemWord {
      TagFound(Keywords, 5, rest, [0, 0, 0, 0, 6]);
    } else {
      TagFound(Keywords, 6, rest, [0, 0, 0, 0, 0, 0]);
    }
  }

  /** Keywords 7 to 10 are recognised whatever follows. */
  lemma KeywordTagOfB(kw: Keyword, rest: string)
    requires kw == InsertItemWord || kw == EnterMatrixWord || kw == InsertRatingWord || kw == UpdateRatingWord
    ensures FirstTag(Keywords, Spelling(kw) + rest) == Some((Spelling(kw), kw))
  {
    if kw == InsertItemWord {
      TagFound(Keywords, 7, rest, [0, 0, 0, 0, 0, 0, 7]);
    } else if kw == EnterMatrixWord {
      TagFound(Keywords, 8, rest, [0, 0, 0, 0, 0, 0, 0, 0]);
    } else if kw == InsertRatingWord {
      TagFound(Keywords, 9, rest, [0, 0, 0, 0, 0, 0, 7, 7, 0]);
    } else {
      TagFound(Keywords, 10, rest, [0, 0, 0, 1, 0, 0, 0, 0, 0, 0]);
    }
  }

  /** Keywords 11 to 13 are recognised whatever follows. */
  lemma KeywordTagOfC(kw: Keyword, rest: string)
    requires kw == RemoveRatingWord || kw == QueryRatingsWord || kw == UserDistanceWord
    ensures FirstTag(Keywords, Spelling(kw) + rest) == Some((Spelling(kw), kw))
  {
    if kw == RemoveRatingWord {
      TagFound(Keywords, 11, rest, [0, 0, 0, 0, 0, 0, 0, 0, 0, 0, 0]);
    } else if kw == QueryRatingsWord {
      TagFound(Keywords, 12, rest, [0, 0, 0, 0, 6, 6, 0, 0, 0, 0, 0, 0]);
    } else {
      TagFound(Keywords, 13, rest, [0, 0, 0, 5, 0, 0, 0, 0, 0, 0, 1, 0, 0]);
    }
  }

  /** Keywords 14 and 15 are recognised whatever follows. */
  lemma KeywordTagOfD(kw: Keyword, rest: string)
    requires kw == ItemDistanceWord || kw == UserBasedPredictWord
    ensures FirstTag(Keywords, Spelling(kw) + rest) == Some((Spelling(kw), kw))
  {
    if kw == ItemDistanceWord {
      TagFound(Keywords, 14, rest, [0, 0, 0, 0, 0, 0, 1, 1, 0, 1, 0, 0, 0, 0]);
    } else {
      TagFound(Keywords, 15, rest, [0, 0, 0, 5, 0, 0, 0, 0, 0, 0, 1, 0, 0, 5, 0]);
    }
  }

  /** Keyword 16 is recognised whatever follows. */
  lemma KeywordTagOfE(rest: string)
    ensures FirstTag(Keywords, Spelling(ItemBasedPredictWord) + rest) == Some((Spelling(ItemBasedPredictWord), ItemBasedPredictWord))
  {
    TagFound(Keywords, 16, rest, [0, 0, 0, 0, 0, 0, 1, 1, 0, 1, 0, 0, 0, 0, 5, 0]);
  }

  /** The argument kinds of each keyword with an argument list. */
  function KindsOf(kw: Keyword): seq<ArgKind> {
    match kw
    case QueryUserWord | QueryItemWord | QueryRatingsWord => [KeyArg]
    case UserDistanceWord => [KeyArg, KeyArg, UserMethodArg]
    case ItemDistanceWord => [KeyArg, KeyArg, ItemMethodArg]
    case UserKnnWord => [IntArg, KeyArg, UserMethodArg]
    case EnterMatrixWord => [IntArg, IntArg, ItemMethodArg]
    case GetWord | RemoveRatingWord => [KeyArg, KeyArg]
    case MoveToWord => [IntArg, IntArg]
    case UserBasedPredictWord => [IntArg, KeyArg, KeyArg, UserMethodArg]
    case ItemBasedPredictWord => [KeyArg, KeyArg, ItemMethodArg, IntArg]
    case InsertRatingWord | UpdateRatingWord => [KeyArg, KeyArg, ScoreArg]
    case ConnectWord | InsertUserWord | InsertItemWord => []
  }

  /** Only `user_knn` and `user_based_predict` take the optional chunk size. */
  predicate TakesChunkSize(kw: Keyword) {
    kw == UserKnnWord || kw == UserBasedPredictWord
  }

  /** The statement a keyword builds from its parsed arguments. */
  function Build(kw: Keyword, args: seq<Arg>, chunk: Option<nat>): (st: Statement)
    requires |KindsOf(kw)| > 0 && Fits(args, KindsOf(kw))
    ensures KeywordOf(st) == kw && HasArguments(st)
    ensures ChunkOf(st) == if TakesChunkSize(kw) then chunk else None
  {
    match kw
    case QueryUserWord => QueryUser(args[0].key)
    case QueryItemWord => QueryItem(args[0].key)
    case QueryRatingsWord => QueryRatings(args[0].key)
    case UserDistanceWord => UserDistance(args[0].key, args[1].key, args[2].um)
    case ItemDistanceWord => ItemDistance(args[0].key, args[1].key, args[2].im)
    case UserKnnWord => UserKnn(args[0].number, args[1].key, args[2].um, chunk)
    case EnterMatrixWord => EnterMatrix(args[0].number, args[1].number, args[2].im)
    case GetWord => MatrixGet(args[0].key, args[1].key)
    case MoveToWord => MatrixMoveTo(args[0].number, args[1].number)
    case UserBasedPredictWord => UserBasedPredict(args[0].number, args[1].key, args[2].key, args[3].um, chunk)
    case ItemBasedPredictWord => ItemBasedPredict(args[0].key, args[1].key, args[2].im, args[3].number)
    case InsertRatingWord => InsertRating(args[0].key, args[1].key, args[2].score)
    case UpdateRatingWord => UpdateRating(args[0].key, args[1].key, args[2].score)
    case RemoveRatingWord => RemoveRating(args[0].key, args[1].key)
  }

  /** `connect`'s `delimited(char('('), parse_ident, char(')'))` and the database conversion. */
  function ParseConnect(input: string): (r: Aborting<Parsed<Statement>>)
    ensures r.Panics? ==> |input| > 0 && input[0] == '('
    ensures r.Returns? && r.value.Done? ==> r.value.value.Connect?
  {
    match Tag("(", input)
    case Failed => Returns(Failed)
    case Done(_, r1) =>
      match ParseIdent(r1)
      case Failed => Returns(Failed)
      case Done(name, r2) =>
        match Tag(")", r2)
        case Failed => Returns(Failed)
        case Done(_, r3) =>
          match DatabaseFrom(name)
          case None => Panics
          case Some(d) => Returns(Done(Connect(d), r3))
  }

  /**
   * `parse_statement`: the first keyword the input starts with, then its
   * arguments. `connect` panics on a database name it does not know.
   */
  function ParseStatement(input: string, float: string -> Parsed<real>): (r: Aborting<Parsed<Statement>>)
    ensures (forall p :: p in Keywords ==> !(p.0 <= input)) ==> r == Returns(Failed)
    ensures r.Panics? ==> "connect(" <= input
    ensures r.Returns? && r.value.Done? ==> Spelling(KeywordOf(r.value.value)) <= input
  {
    match FirstTag(Keywords, input)
    case None => Returns(Failed)
    case Some((word, kw)) =>
      TagSpelled((word, kw));
      var r := ParseAfter(kw, input[|word|..], float);
      assert r.Panics? ==> "connect(" <= input by {
        if r.Panics? {
          assert word == "connect";
          PrefixExtend(word, input);
        }
      }
      r
  }

  /** Each keyword's tag is its spelling. */
  lemma TagSpelled(p: (string, Keyword))
    requires p in Keywords
    ensures p.0 == Spelling(p.1)
  {
    var k :| 0 <= k < |Keywords| && Keywords[k] == p;
    KeywordSpelledAt(k);
  }

  /** A prefix of the input followed by the next character is a prefix too. */
  lemma PrefixExtend(t: string, input: string)
    requires t <= input && |input| > |t|
    ensures t + [input[|t|]] <= input
  {
  }

  /** The tag at position `k` is the spelling of the keyword there. */
  lemma KeywordSpelledAt(k: nat)
    requires k < |Keywords|
    ensures Keywords[k].0 == Spelling(Keywords[k].1)
  {
    if k == 0 {
      assert Keywords[0].1 == GetWord;
    } else if k == 1 {
      assert Keywords[1].1 == MoveToWord;
    } else if k == 2 {
      assert Keywords[2].1 == ConnectWord;
    } else if k == 3 {
      assert Keywords[3].1 == UserKnnWord;
    } else if k == 4 {
      assert Keywords[4].1 == QueryUserWord;
    } else if k == 5 {
      assert Keywords[5].1 == QueryItemWord;
    } else if k == 6 {
      assert Keywords[6].1 == InsertUserWord;
    } else if k == 7 {
      assert Keywords[7].1 == InsertItemWord;
    } else if k == 8 {
      assert Keywords[8].1 == EnterMatrixWord;
    } else if k == 9 {
      assert Keywords[9].1 == InsertRatingWord;
    } else if k == 10 {
      assert Keywords[10].1 == UpdateRatingWord;
    } else if k == 11 {
      assert Keywords[11].1 == RemoveRatingWord;
    } else if k == 12 {
      assert Keywords[12].1 == QueryRatingsWord;
    } else if k == 13 {
      assert Keywords[13].1 == UserDistanceWord;
    } else if k == 14 {
      assert Keywords[14].1 == ItemDistanceWord;
    } else if k == 15 {
      assert Keywords[15].1 == UserBasedPredictWord;
    } else {
      assert Keywords[16].1 == ItemBasedPredictWord;
    }
  }

  /** What follows a keyword: nothing for the two insertions, a database for `connect`, else an argument list. */
  function ParseAfter(kw: Keyword, input: string, float: string -> Parsed<real>): (r: Aborting<Parsed<Statement>>)
    ensures r.Panics? ==> kw == ConnectWord
    ensures r.Panics? ==> |input| > 0 && input[0] == '('
    ensures r.Returns? && r.value.Done? ==> KeywordOf(r.value.value) == kw
  {
    if |KindsOf(kw)| > 0 then Returns(ParseArguments(kw, input, float))
    else if kw == InsertUserWord then Returns(Done(InsertUser, input))
    else if kw == InsertItemWord then Returns(Done(InsertItem, input))
    else
      NoArguments(kw);
      ParseConnect(input)
  }

  /** The keywords without an argument list. */
  lemma NoArguments(kw: Keyword)
    requires |KindsOf(kw)| == 0
    ensures kw == ConnectWord || kw == InsertUserWord || kw == InsertItemWord
  {
  }

  /** The argument list of a keyword that takes one, and the statement built from it. */
  function ParseArguments(kw: Keyword, input: string, float: string -> Parsed<real>): (r: Parsed<Statement>)
    requires |KindsOf(kw)| > 0
    ensures r.Done? ==> KeywordOf(r.value) == kw && HasArguments(r.value) && Fits(ArgsOf(r.value), KindsOf(kw))
    ensures r.Done? && ChunkOf(r.value).Some? ==> TakesChunkSize(kw)
  {
    match ParseCall(KindsOf(kw), TakesChunkSize(kw), input, float)
    case Failed => Failed
    case Done((args, chunk), rest) => Done(Build(kw, args, chunk), rest)
  }

  /** The keyword a statement is written with. */
  function KeywordOf(st: Statement): Keyword {
    match st
    case Connect(_) => ConnectWord
    case QueryUser(_) => QueryUserWord
    case QueryItem(_) => QueryItemWord
    case QueryRatings(_) => QueryRatingsWord
    case UserDistance(_, _, _) => UserDistanceWord
    case ItemDistance(_, _, _) => ItemDistanceWord
    case UserKnn(_, _, _, _) => UserKnnWord
    case UserBasedPredict(_, _, _, _, _) => UserBasedPredictWord
    case ItemBasedPredict(_, _, _, _) => ItemBasedPredictWord
    case EnterMatrix(_, _, _) => EnterMatrixWord
    case MatrixGet(_, _) => GetWord
    case MatrixMoveTo(_, _) => MoveToWord
    case InsertUser => InsertUserWord
    case InsertItem => InsertItemWord
    case InsertRating(_, _, _) => InsertRatingWord
    case UpdateRating(_, _, _) => UpdateRatingWord
    case RemoveRating(_, _) => RemoveRatingWord
  }

  /** All statements but `connect` and the two insertions are written with an argument list. */
  predicate HasArguments(st: Statement) {
    !st.Connect? && !st.InsertUser? && !st.InsertItem?
  }

  /** The chunk size a statement carries, for the two that take an optional one. */
  function ChunkOf(st: Statement): (chunk: Option<nat>)
    ensures chunk.Some? ==> TakesChunkSize(KeywordOf(st))
  {
    match st
    case UserKnn(_, _, _, chunk) => chunk
    case UserBasedPredict(_, _, _, _, chunk) => chunk
    case _ => None
  }

  /** A statement's arguments in the order they are written; its keyword builds it back from them. */
  function ArgsOf(st: Statement): (args: seq<Arg>)
    requires HasArguments(st)
    ensures |KindsOf(KeywordOf(st))| > 0 && Fits(args, KindsOf(KeywordOf(st)))
    ensures Build(KeywordOf(st), args, ChunkOf(st)) == st
  {
    match st
    case QueryUser(u) => [Key(u)]
    case QueryItem(i) => [Key(i)]
    case QueryRatings(u) => [Key(u)]
    case UserDistance(a, b, m) => [Key(a), Key(b), UserMethodOf(m)]
    case ItemDistance(a, b, m) => [Key(a), Key(b), ItemMethodOf(m)]
    case UserKnn(k, u, m, _) => [Int(k), Key(u), UserMethodOf(m)]
    case UserBasedPredict(k, u, i, m, _) => [Int(k), Key(u), Key(i), UserMethodOf(m)]
    case ItemBasedPredict(u, i, m, chunk) => [Key(u), Key(i), ItemMethodOf(m), Int(chunk)]
    case EnterMatrix(m, n, im) => [Int(m), Int(n), ItemMethodOf(im)]
    case MatrixGet(a, b) => [Key(a), Key(b)]
    case MatrixMoveTo(i, j) => [Int(i), Int(j)]
    case InsertRating(u, i, score) => [Key(u), Key(i), Score(score)]
    case UpdateRating(u, i, score) => [Key(u), Key(i), Score(score)]
    case RemoveRating(u, i) => [Key(u), Key(i)]
  }

  /**
   * The statements this model writes back as text: every argument writable
   * (so no scores) and every number within `i64`.
   */
  predicate Writable(st: Statement) {
    HasArguments(st) ==> AllOk(ArgsOf(st)) && (ChunkOf(st).Some? ==> ChunkOf(st).value <= I64_MAX)
  }

  /** How a statement is written: its keyword, then its database or its argument list. */
  function Render(st: Statement): (s: string)
    requires Writable(st)
    ensures Spelling(KeywordOf(st)) <= s
  {
    if st.Connect? then "connect(" + DatabaseName(st.database) + ")"
    else if st.InsertUser? then "insert_user"
    else if st.InsertItem? then "insert_item"
    else Spelling(KeywordOf(st)) + CallText(ArgsOf(st), ChunkOf(st))
  }

  /** Every writable statement is read back from its text, whatever follows it. */
  lemma StatementRoundTrip(st: Statement, rest: string, float: string -> Parsed<real>)
    requires Writable(st)
    ensures ParseStatement(Render(st) + rest, float) == Returns(Done(st, rest))
  {
    if st.Connect? {
      ConnectRoundTrip(st.database, rest, float);
    } else if st.InsertUser? || st.InsertItem? {
      InsertRoundTrip(st, rest, float);
    } else {
      ArgumentsRoundTrip(st, rest, float);
    }
  }

  /** `insert_user` and `insert_item` are their keyword alone, whatever follows. */
  lemma InsertRoundTrip(st: Statement, rest: string, float: string -> Parsed<real>)
    requires st.InsertUser? || st.InsertItem?
    ensures ParseStatement(Render(st) + rest, float) == Returns(Done(st, rest))
  {
    var kw := KeywordOf(st);
    InsertAlone(st, rest, float);
    KeywordThen(kw, rest, float);
  }

  /** An insertion is written as its keyword alone, and after that keyword nothing more is read. */
  lemma InsertAlone(st: Statement, rest: string, float: string -> Parsed<real>)
    requires st.InsertUser? || st.InsertItem?
    ensures Render(st) == Spelling(KeywordOf(st))
    ensures ParseAfter(KeywordOf(st), rest, float) == Returns(Done(st, rest))
  {
  }

  /** `connect` with a known database name is read back. */
  lemma ConnectRoundTrip(d: Database, rest: string, float: string -> Parsed<real>)
    ensures ParseStatement(Render(Connect(d)) + rest, float) == Returns(Done(Connect(d), rest))
  {
    var name := DatabaseName(d);
    var r1 := "(" + (name + (")" + rest));
    ConnectText(d, rest);
    KeywordThen(ConnectWord, r1, float);
    ConnectAfter(r1, float);
    DatabaseRoundTrip(d);
    ConnectTail(name, rest);
  }

  /** After `connect` only the database name is read. */
  lemma ConnectAfter(input: string, float: string -> Parsed<real>)
    ensures ParseAfter(ConnectWord, input, float) == ParseConnect(input)
  {
    assert KindsOf(ConnectWord) == [];
  }

  /** `connect` is its keyword, then the database name in parentheses. */
  lemma ConnectText(d: Database, rest: string)
    ensures Render(Connect(d)) + rest == Spelling(ConnectWord) + ("(" + (DatabaseName(d) + (")" + rest)))
  {
    var name := DatabaseName(d);
    assert Render(Connect(d)) == "connect(" + name + ")";
    assert "connect(" == "connect" + "(";
    Regroup("connect", "(", name, ")", rest);
    assert Spelling(ConnectWord) == "connect";
  }

  /** Once a keyword is recognised, the rest of the statement is parsed for that keyword. */
  lemma KeywordThen(kw: Keyword, text: string, float: string -> Parsed<real>)
    ensures ParseStatement(Spelling(kw) + text, float) == ParseAfter(kw, text, float)
  {
    KeywordTagOf(kw, text);
    assert (Spelling(kw) + text)[|Spelling(kw)|..] == text;
  }

  /** After `connect`: a parenthesised identifier is taken whole and looked up as a database name. */
  lemma ConnectTail(name: string, rest: string)
    requires IsIdent(name)
    ensures ParseConnect("(" + (name + (")" + rest)))
         == match DatabaseFrom(name) case None => Panics case Some(d) => Returns(Done(Connect(d), rest))
  {
    var r3 := ")" + rest;
    var r2 := name + r3;
    assert Tag("(", "(" + r2) == Done("(", r2) by { TagOf("(", r2); }
    assert ParseIdent(r2) == Done(name, r3) by { ParseIdentOf(name, r3); }
    assert Tag(")", r3) == Done(")", rest) by { TagOf(")", rest); }
  }

  /** `connect` with an identifier that names no database panics, whatever follows. */
  lemma ConnectUnknownPanics(name: string, rest: string, float: string -> Parsed<real>)
    requires IsIdent(name) && DatabaseFrom(name).None?
    ensures ParseStatement("connect(" + name + ")" + rest, float) == Panics
  {
    var r1 := "(" + (name + (")" + rest));
    assert "connect(" + name + ")" + rest == Spelling(ConnectWord) + r1;
    assert ParseStatement(Spelling(ConnectWord) + r1, float) == ParseConnect(r1) by { KeywordThen(ConnectWord, r1, float); }
    assert ParseConnect(r1) == Panics by { ConnectTail(name, rest); }
  }

  /** A statement with an argument list is read back: keyword, arguments and chunk size. */
  lemma ArgumentsRoundTrip(st: Statement, rest: string, float: string -> Parsed<real>)
    requires Writable(st) && HasArguments(st)
    ensures ParseStatement(Render(st) + rest, float) == Returns(Done(st, rest))
  {
    var kw := KeywordOf(st);
    var text := CallText(ArgsOf(st), ChunkOf(st)) + rest;
    assert Render(st) + rest == Spelling(kw) + text;
    assert ParseStatement(Spelling(kw) + text, float) == ParseAfter(kw, text, float) by { KeywordThen(kw, text, float); }
    assert ParseCall(KindsOf(kw), TakesChunkSize(kw), text, float) == Done((ArgsOf(st), ChunkOf(st)), rest) by {
      ParseCallOf(KindsOf(kw), TakesChunkSize(kw), ArgsOf(st), ChunkOf(st), rest, float);
    }
    assert ParseArguments(kw, text, float) == Done(st, rest);
  }

  /** Rust's `char::is_whitespace`: the characters with the Unicode `White_Space` property. */
  predicate IsWhitespace(c: char) {
    ('\U{9}' <= c <= '\U{D}') || c == ' ' || c == '\U{85}' || c == '\U{A0}' || c == '\U{1680}'
    || ('\U{2000}' <= c <= '\U{200A}') || c == '\U{2028}' || c == '\U{2029}' || c == '\U{202F}'
    || c == '\U{205F}' || c == '\U{3000}'
  }

  /** The number of whitespace characters ending `s`. */
  function TrailingWhitespace(s: string): (n: nat)
    ensures n <= |s|
    ensures forall i :: |s| - n <= i < |s| ==> IsWhitespace(s[i])
    ensures n < |s| ==> !IsWhitespace(s[|s| - n - 1])
  {
    if s == [] || !IsWhitespace(s[|s| - 1]) then 0 else 1 + TrailingWhitespace(s[..|s| - 1])
  }

  /** `str::trim`: without leading and trailing whitespace. */
  function Trim(s: string): (t: string)
    ensures t == [] || (!IsWhitespace(t[0]) && !IsWhitespace(t[|t| - 1]))
  {
    var start := s[SpanLength(s, IsWhitespace)..];
    start[..|start| - TrailingWhitespace(start)]
  }

  /** `parse_line`: the trimmed line must be exactly one statement. */
  function ParseLine(input: string, float: string -> Parsed<real>): (r: Aborting<Option<Statement>>)
    ensures r.Panics? <==> ParseStatement(Trim(input), float).Panics?
  {
    match ParseStatement(Trim(input), float)
    case Panics => Panics
    case Returns(Failed) => Returns(None)
    case Returns(Done(statement, rest)) => Returns(if rest == [] then Some(statement) else None)
  }

  /** A text that neither starts nor ends with whitespace is its own trim. */
  lemma TrimKeeps(s: string)
    requires s != [] && !IsWhitespace(s[0]) && !IsWhitespace(s[|s| - 1])
    ensures Trim(s) == s
  {
    assert SpanLength(s, IsWhitespace) == 0;
    assert TrailingWhitespace(s) == 0;
  }

  /** Whitespace after a text that does not end in whitespace is counted exactly. */
  lemma {:induction false} TrailingOfSuffix(u: string, v: string)
    requires u != [] && !IsWhitespace(u[|u| - 1])
    requires forall i :: 0 <= i < |v| ==> IsWhitespace(v[i])
    ensures TrailingWhitespace(u + v) == |v|
    decreases |v|
  {
    if v != [] {
      var w := u + v;
      assert w[..|w| - 1] == u + v[..|v| - 1];
      TrailingOfSuffix(u, v[..|v| - 1]);
    }
  }

  /** Spaces around a text that neither starts nor ends with whitespace are trimmed away. */
  lemma TrimBlanks(i: nat, s: string, j: nat)
    requires s != [] && !IsWhitespace(s[0]) && !IsWhitespace(s[|s| - 1])
    ensures Trim(Blanks(i) + s + Blanks(j)) == s
  {
    var line := Blanks(i) + (s + Blanks(j));
    assert Blanks(i) + s + Blanks(j) == line;
    SpanOfPrefix(Blanks(i), s + Blanks(j), IsWhitespace);
    assert line[i..] == s + Blanks(j);
    TrailingOfSuffix(s, Blanks(j));
    assert (s + Blanks(j))[..|s|] == s;
  }

  /** A statement's text starts with its keyword and ends with `)` or the keyword itself. */
  lemma RenderEdges(st: Statement)
    requires Writable(st)
    ensures Render(st) != [] && !IsWhitespace(Render(st)[0]) && !IsWhitespace(Render(st)[|Render(st)| - 1])
  {
    var s := Render(st);
    assert s[0] == Spelling(KeywordOf(st))[0];
    if HasArguments(st) {
      var call := CallText(ArgsOf(st), ChunkOf(st));
      assert call == "(" + ArgsText(ArgsOf(st)) + ChunkText(ChunkOf(st)) + ")";
      assert call[|call| - 1] == ')';
      assert s[|s| - 1] == call[|call| - 1];
    }
  }

  /** A writable statement alone on a line, with any spaces around it, is read back. */
  lemma LineRoundTrip(st: Statement, i: nat, j: nat, float: string -> Parsed<real>)
    requires Writable(st)
    ensures ParseLine(Blanks(i) + Render(st) + Blanks(j), float) == Returns(Some(st))
  {
    RenderEdges(st);
    TrimBlanks(i, Render(st), j);
    StatementRoundTrip(st, [], float);
    assert Render(st) + [] == Render(st);
  }

  /** A statement's text alone on a line is read back. */
  lemma LineAlone(st: Statement, float: string -> Parsed<real>)
    requires Writable(st)
    ensures ParseLine(Render(st), float) == Returns(Some(st))
  {
    LineRoundTrip(st, 0, 0, float);
    assert Blanks(0) + Render(st) + Blanks(0) == Render(st);
  }

  /** Anything but whitespace after a statement makes the line fail without panicking. */
  lemma LineRejectsTrailing(st: Statement, rest: string, float: string -> Parsed<real>)
    requires Writable(st) && rest != [] && !IsWhitespace(rest[|rest| - 1])
    ensures ParseLine(Render(st) + rest, float) == Returns(None)
  {
    var line := Render(st) + rest;
    RenderEdges(st);
    assert line[0] == Render(st)[0] && line[|line| - 1] == rest[|rest| - 1];
    TrimKeeps(line);
    StatementRoundTrip(st, rest, float);
  }

  /** A statement's text alone is read back with nothing left over. */
  lemma StatementAlone(st: Statement, text: string, float: string -> Parsed<real>)
    requires Writable(st) && Render(st) == text
    ensures ParseStatement(text, float) == Returns(Done(st, ""))
  {
    StatementRoundTrip(st, "", float);
    assert text + "" == text;
  }

  /** The unit tests' `connect` statement. */
  lemma ConnectExample(float: string -> Parsed<real>)
    ensures ParseStatement("connect(simple-movie)", float) == Returns(Done(Connect(SimpleMovie), ""))
  {
    StatementAlone(Connect(SimpleMovie), "connect(simple-movie)", float);
  }

  /** The unit tests' `move_to` statement. */
  lemma MoveToExample(float: string -> Parsed<real>)
    ensures ParseStatement("move_to(10, 1)", float) == Returns(Done(MatrixMoveTo(10, 1), ""))
  {
    var st := MatrixMoveTo(10, 1);
    assert Show(10) == "10" by { assert Digits(1) == "1"; }
    assert Show(1) == "1";
    assert ArgsText(ArgsOf(st)) == "10, 1";
    StatementAlone(st, "move_to(10, 1)", float);
  }

  /** Three arguments are written with `, ` between them. */
  lemma ArgsTextOfThree(args: seq<Arg>)
    requires |args| == 3 && AllOk(args)
    ensures ArgsText(args) == ArgText(args[0]) + (", " + (ArgText(args[1]) + (", " + ArgText(args[2]))))
  {
    var tail := args[1..];
    assert tail[0] == args[1] && tail[1..] == [args[2]];
    assert ArgsText(tail[1..]) == ArgText(args[2]);
    assert ArgsText(tail) == ArgText(args[1]) + (", " + ArgText(args[2]));
  }

  /** The unit tests' `user_knn` statement with a chunk size. */
  lemma UserKnnExample(float: string -> Parsed<real>)
    ensures ParseStatement("user_knn(4, id('324x'), minkowski(3), 10)", float)
         == Returns(Done(UserKnn(4, Id("324x"), Users.Minkowski(3), Some(10)), ""))
  {
    UserKnnRender();
    StatementAlone(UserKnn(4, Id("324x"), Users.Minkowski(3), Some(10)), "user_knn(4, id('324x'), minkowski(3), 10)", float);
  }

  /** The statement of the `user_knn` example is written as in the unit tests. */
  lemma UserKnnRender()
    ensures var st := UserKnn(4, Id("324x"), Users.Minkowski(3), Some(10));
      Writable(st) && Render(st) == "user_knn(4, id('324x'), minkowski(3), 10)"
  {
    var st := UserKnn(4, Id("324x"), Users.Minkowski(3), Some(10));
    var args := "4" + (", " + ("id" + "('" + "324x" + "')" + (", " + ("minkowski(" + "3" + ")"))));
    UserKnnPieces(st, args);
    RenderPieces(st, "user_knn", args, ", " + "10");
    UserKnnText();
  }

  /** The keyword, arguments and chunk size of the `user_knn` example, each as written. */
  lemma UserKnnPieces(st: Statement, args: string)
    requires st == UserKnn(4, Id("324x"), Users.Minkowski(3), Some(10))
    requires args == "4" + (", " + ("id" + "('" + "324x" + "')" + (", " + ("minkowski(" + "3" + ")"))))
    ensures HasArguments(st) && Writable(st)
    ensures Spelling(KeywordOf(st)) == "user_knn" && ArgsText(ArgsOf(st)) == args && ChunkText(ChunkOf(st)) == ", " + "10"
  {
    assert ArgsOf(st) == [Int(4), Key(Id("324x")), UserMethodOf(Users.Minkowski(3))];
    UserKnnArgs();
    assert Show(10) == "10" by { assert Digits(1) == "1"; }
  }

  /** A statement with an argument list, from the texts of its keyword, its arguments and its chunk size. */
  lemma RenderPieces(st: Statement, keyword: string, args: string, chunk: string)
    requires HasArguments(st) && Writable(st)
    requires Spelling(KeywordOf(st)) == keyword && ArgsText(ArgsOf(st)) == args && ChunkText(ChunkOf(st)) == chunk
    ensures Render(st) == keyword + ((("(" + args) + chunk) + ")")
  {
    RenderCall(st);
  }

  lemma UserKnnArgs()
    ensures var args := [Int(4), Key(Id("324x")), UserMethodOf(Users.Minkowski(3))];
      AllOk(args) && ArgsText(args) == "4" + (", " + ("id" + "('" + "324x" + "')" + (", " + ("minkowski(" + "3" + ")"))))
  {
    assert KeyOk(Id("324x")) by { assert IsIdent("id"); }
    ArgsTextOfThree([Int(4), Key(Id("324x")), UserMethodOf(Users.Minkowski(3))]);
  }

  /** A statement with an argument list is its keyword and its parenthesised arguments. */
  lemma RenderCall(st: Statement)
    requires Writable(st) && HasArguments(st)
    ensures Render(st) == Spelling(KeywordOf(st)) + ((("(" + ArgsText(ArgsOf(st))) + ChunkText(ChunkOf(st))) + ")")
  {
  }

  /** The unit tests' valid line. */
  lemma ValidLineExample(float: string -> Parsed<real>)
    ensures ParseLine("user_knn(5, name('Patrick C'), cosine)", float)
         == Returns(Some(UserKnn(5, Name("Patrick C"), Users.CosineSimilarity, None)))
  {
    ValidLineRender();
    LineAlone(UserKnn(5, Name("Patrick C"), Users.CosineSimilarity, None), float);
  }

  /** The statement of the valid line is written as in the unit tests. */
  lemma ValidLineRender()
    ensures var st := UserKnn(5, Name("Patrick C"), Users.CosineSimilarity, None);
      Writable(st) && Render(st) == "user_knn(5, name('Patrick C'), cosine)"
  {
    var st := UserKnn(5, Name("Patrick C"), Users.CosineSimilarity, None);
    ValidLineArgs();
    RenderPieces(st, "user_knn", "5" + (", " + ("name" + "('" + "Patrick C" + "')" + (", " + "cosine"))), "");
    ValidLineText();
  }

  lemma ValidLineArgs()
    ensures var args := [Int(5), Key(Name("Patrick C")), UserMethodOf(Users.CosineSimilarity)];
      AllOk(args) && ArgsText(args) == "5" + (", " + ("name" + "('" + "Patrick C" + "')" + (", " + "cosine")))
  {
    assert KeyOk(Name("Patrick C")) by { assert IsIdent("name"); }
    ArgsTextOfThree([Int(5), Key(Name("Patrick C")), UserMethodOf(Users.CosineSimilarity)]);
  }

  /** The text of the `user_knn` example, piece by piece as it is rendered. */
  lemma UserKnnText()
    ensures "user_knn(4, id('324x'), minkowski(3), 10)"
         == "user_knn" + ((("(" + ("4" + (", " + ("id" + "('" + "324x" + "')" + (", " + ("minkowski(" + "3" + ")")))))) + (", " + "10")) + ")")
  {
  }

  /** The text of the valid line, piece by piece as it is rendered. */
  lemma ValidLineText()
    ensures "user_knn(5, name('Patrick C'), cosine)"
         == "user_knn" + ((("(" + ("5" + (", " + ("name" + "('" + "Patrick C" + "')" + (", " + "cosine"))))) + "") + ")")
  {
  }

  /** The unit tests' invalid line: an empty key value. */
  lemma InvalidLineExample(float: string -> Parsed<real>)
    ensures ParseLine("query_user(id())xx", float) == Returns(None)
  {
    var line := "query_user(id())xx";
    var inner := "id" + "()" + ")xx";
    InvalidLineTrim();
    InvalidLineText();
    InvalidLineKey();
    KeyArgumentFails(QueryUserWord, inner, float);
    LineFails(line, float);
  }

  /** The invalid line is its own trim. */
  lemma InvalidLineTrim()
    ensures Trim("query_user(id())xx") == "query_user(id())xx"
  {
    TrimKeeps("query_user(id())xx");
  }

  /** After `query_user(` the invalid line has an identifier with an empty value. */
  lemma InvalidLineKey()
    ensures ParseSearchBy("id" + "()" + ")xx").Failed?
  {
    assert IsIdent("id");
    EmptyKeyFails("id", ")xx");
  }

  /** A line that is its own trim and no statement is rejected without a panic. */
  lemma LineFails(line: string, float: string -> Parsed<real>)
    requires Trim(line) == line && ParseStatement(line, float) == Returns(Failed)
    ensures ParseLine(line, float) == Returns(None)
  {
  }

  /** A keyword whose first argument is a key, followed by `(` and text that is no key, is no statement. */
  lemma KeyArgumentFails(kw: Keyword, inner: string, float: string -> Parsed<real>)
    requires |KindsOf(kw)| > 0 && KindsOf(kw)[0] == KeyArg && ParseSearchBy(inner).Failed?
    ensures ParseStatement(Spelling(kw) + ("(" + inner), float) == Returns(Failed)
  {
    KeywordThen(kw, "(" + inner, float);
    TagOf("(", inner);
  }

  /** The text of the invalid line, piece by piece. */
  lemma InvalidLineText()
    ensures "query_user(id())xx" == Spelling(QueryUserWord) + ("(" + ("id" + "()" + ")xx"))
  {
    assert Spelling(QueryUserWord) == "query_user";
  }
}
