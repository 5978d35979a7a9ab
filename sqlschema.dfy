/** The canonical schema state of package `sqlschema` (migrate/sqlschema) and
    the two normalisers the model-derived inspector applies to declared
    columns: `parseLen` for column types and `exprToLower` for default values. */
module SqlSchema {
  import opened Wrappers
  import opened GoStrings
  import opened StrConv

  /** One column as the schema differ compares it. */
  datatype Column = Column(
    sqlType: string,
    varcharLen: int,
    defaultValue: string,
    isPK: bool,
    isNullable: bool,
    isAutoIncrement: bool,
    isIdentity: bool)

  /** One table; `model` is the opaque handle to the application type the
      table was declared by. */
  datatype Table<M> = Table(schema: string, name: string, model: M, columns: map<string, Column>)

  /** `C(schema, table, cols...)`: an ordered list of columns of one table. */
  datatype ColumnReference = C(schema: string, table: string, columns: seq<string>)

  /** A foreign key, compared by value so that it can be a map key. */
  datatype FK = FK(from: ColumnReference, to: ColumnReference)

  /** A schema snapshot: the tables in the order they were produced, and the
      foreign keys, each mapped to its constraint name. */
  datatype State<M> = State(tables: seq<Table<M>>, fks: map<FK, string>)

  /** What `parseLen` does: it returns a (base type, length, error) triple, or
      the slice `typ[paren+1 : len(typ)-1]` panics because `(` is the last
      character. */
  datatype LenParse = LenParse(base: string, length: int, err: Option<NumError>) | SlicePanic {
    /** A split without error and without panic. */
    predicate Clean() {
      LenParse? && err.None?
    }
  }

  /** `parseLen`: split a column type such as `varchar(255)` at its first `(`.
      The text between that `(` and the LAST character (whatever it is) must be
      an integer for `Atoi`; otherwise the type comes back whole, with length 0
      and the error. */
  function ParseLen(typ: string): LenParse {
    var paren := Index(typ, '(');
    if paren == -1 then LenParse(typ, 0, None)
    else if paren + 1 > |typ| - 1 then SlicePanic
    else
      match Atoi(typ[paren + 1 .. |typ| - 1])
      case Error(e) => LenParse(typ, 0, Some(e))
      case Ok(n) => LenParse(typ[..paren], n, None)
  }

  /** A type string that `parseLen` splits without error and without panic. */
  predicate ParsesCleanly(typ: string) {
    ParseLen(typ).Clean()
  }

  /** Does `s` both start and end with a single quote, i.e. is it a string
      literal for `exprToLower`? The one-character string `'` is one. */
  predicate IsQuoted(s: string) {
    HasPrefix(s, "'") && HasSuffix(s, "'")
  }

  /** `exprToLower`: keep a string literal verbatim, lower-case anything else. */
  function ExprToLower(s: string): string {
    if IsQuoted(s) then s else ToLower(s)
  }

  // ---------------------------------------------------------------------------
  // parseLen

  /** `typ` is `base`, a `(` and `rest`, and `base` holds no `(`: the first
      `(` of `typ` is at `|base|`. */
  lemma IndexAfterBase(base: string, rest: string)
    requires '(' !in base
    ensures Index(base + "(" + rest, '(') == |base|
  {
    var typ := base + "(" + rest;
    assert typ[|base|] == '(';
    assert typ[..|base|] == base;
  }

  /** A type without `(` is its own base type, with length 0 and no error. */
  lemma ParseLenWithoutParen(typ: string)
    requires '(' !in typ
    ensures ParseLen(typ) == LenParse(typ, 0, None)
  {
  }

  /** The general case: `base(arg` followed by ANY last character. The last
      character is dropped unseen; `arg` alone decides between a length and an
      error, and on an error the whole type string comes back. */
  lemma ParseLenDropsLastChar(base: string, arg: string, last: char)
    requires '(' !in base
    ensures var typ := base + "(" + arg + [last];
      ParseLen(typ) ==
        match Atoi(arg)
        case Ok(n) => LenParse(base, n, None)
        case Error(_) => LenParse(typ, 0, Some(ErrSyntax(arg)))
  {
    var typ := base + "(" + arg + [last];
    assert typ == base + "(" + (arg + [last]);
    IndexAfterBase(base, arg + [last]);
    assert typ[|base| + 1 .. |typ| - 1] == arg;
    assert typ[..|base|] == base;
  }

  /** `base(N)` for every integer `N` written by `Itoa` gives `(base, N)`:
      the length that a declaration spells is the length that is read back. */
  lemma ParseLenOfDeclaredLength(base: string, n: int)
    requires '(' !in base
    ensures ParseLen(base + "(" + FormatInt(n) + ")") == LenParse(base, n, None)
  {
    ParseLenDropsLastChar(base, FormatInt(n), ')');
    AtoiFormatInt(n);
  }

  /** `base(D)` with `D` one or more decimal digits gives `(base, value of D)`. */
  lemma ParseLenOfDigits(base: string, digits: string)
    requires '(' !in base
    requires |digits| > 0 && forall i :: 0 <= i < |digits| ==> IsDigit(digits[i])
    ensures DecimalValue(digits).Some?
    ensures ParseLen(base + "(" + digits + ")") == LenParse(base, DecimalValue(digits).value, None)
  {
    DecimalValueDefined(digits);
    ParseLenDropsLastChar(base, digits, ')');
  }

  /** When the text between the first `(` and the last character is not an
      integer, the error comes back with the unchanged type and length 0. */
  lemma ParseLenRejects(base: string, arg: string)
    requires '(' !in base
    requires Atoi(arg).Error?
    ensures ParseLen(base + "(" + arg + ")") == LenParse(base + "(" + arg + ")", 0, Some(ErrSyntax(arg)))
  {
    ParseLenDropsLastChar(base, arg, ')');
  }

  /** `parseLen` panics exactly when the first `(` is the last character. */
  lemma ParseLenPanics(typ: string)
    ensures ParseLen(typ).SlicePanic? <==>
      |typ| > 0 && typ[|typ| - 1] == '(' && '(' !in typ[..|typ| - 1]
  {
    var paren := Index(typ, '(');
    if |typ| > 0 && typ[|typ| - 1] == '(' && '(' !in typ[..|typ| - 1] {
      assert typ == typ[..|typ| - 1] + "(" + [];
      IndexAfterBase(typ[..|typ| - 1], []);
    }
    if ParseLen(typ).SlicePanic? {
      assert paren == |typ| - 1;
      assert typ[..|typ| - 1] == typ[..paren];
    }
  }

  /** A base type that `parseLen` splits off is a prefix of the type and holds
      no `(`; it is the whole type exactly when the type holds no `(`. */
  lemma ParseLenBase(typ: string)
    requires ParsesCleanly(typ)
    ensures HasPrefix(typ, ParseLen(typ).base)
    ensures '(' !in ParseLen(typ).base
    ensures ParseLen(typ).base == typ <==> '(' !in typ
  {
    var paren := Index(typ, '(');
    if paren != -1 {
      assert typ[paren] == '(';
      assert |ParseLen(typ).base| == paren < |typ|;
    }
  }

  /** A normalised column type is a fixed point: the lower-cased base type
      that `parseLen` produced parses again to itself with length 0. */
  lemma NormalisedTypeIsFixedPoint(typ: string)
    requires ParsesCleanly(typ)
    ensures ParseLen(ToLower(ParseLen(typ).base)) == LenParse(ToLower(ParseLen(typ).base), 0, None)
  {
    ParseLenBase(typ);
    ToLowerKeepsChar(ParseLen(typ).base, '(');
  }

  lemma ParseLenExampleLength()
    ensures ParseLen("numeric(10)") == LenParse("numeric", 10, None)
  {
    assert "numeric(10)" == "numeric" + "(" + "10" + ")";
    assert "10" == FormatInt(10);
    ParseLenOfDeclaredLength("numeric", 10);
  }

  lemma ParseLenExampleNegative()
    ensures ParseLen("varchar(-5)") == LenParse("varchar", -5, None)
  {
    assert "varchar(-5)" == "varchar" + "(" + "-5" + ")";
    assert "-5" == FormatInt(-5);
    ParseLenOfDeclaredLength("varchar", -5);
  }

  lemma ParseLenExampleWord()
    ensures ParseLen("numeric(ten)") == LenParse("numeric(ten)", 0, Some(ErrSyntax("ten")))
  {
    assert "numeric(ten)" == "numeric" + "(" + "ten" + ")";
    AtoiRejects("ten", 0);
    ParseLenRejects("numeric", "ten");
  }

  lemma ParseLenExampleEmpty()
    ensures ParseLen("varchar()") == LenParse("varchar()", 0, Some(ErrSyntax("")))
  {
    assert "varchar()" == "varchar" + "(" + "" + ")";
    AtoiRejectsNoDigits("");
    ParseLenRejects("varchar", "");
  }

  lemma ParseLenExampleTwoArguments()
    ensures ParseLen("decimal(10,2)") == LenParse("decimal(10,2)", 0, Some(ErrSyntax("10,2")))
  {
    assert "decimal(10,2)" == "decimal" + "(" + "10,2" + ")";
    AtoiRejects("10,2", 2);
    ParseLenRejects("decimal", "10,2");
  }

  lemma ParseLenExampleUnclosed()
    ensures ParseLen("varchar(255") == LenParse("varchar", 25, None)
  {
    assert "varchar(255" == "varchar" + "(" + "25" + ['5'];
    assert "25" == FormatInt(25);
    AtoiFormatInt(25);
    ParseLenDropsLastChar("varchar", "25", '5');
  }

  lemma ParseLenExampleOpenParenLast()
    ensures ParseLen("varchar(").SlicePanic?
  {
    var typ := "varchar(";
    assert typ[|typ| - 1] == '(' && '(' !in typ[..|typ| - 1] by {
      assert typ[..|typ| - 1] == "varchar";
    }
    ParseLenPanics(typ);
  }

  /** Only the first `(` decides the panic: in `a(b(` the last `(` is simply
      dropped and `Atoi` rejects `b`. */
  lemma ParseLenExampleLaterParenLast()
    ensures ParseLen("a(b(") == LenParse("a(b(", 0, Some(ErrSyntax("b")))
  {
    assert "a(b(" == "a" + "(" + "b" + ['('];
    AtoiRejects("b", 0);
    ParseLenDropsLastChar("a", "b", '(');
  }

  // ---------------------------------------------------------------------------
  // exprToLower

  lemma IsQuotedAt(s: string)
    ensures IsQuoted(s) <==> |s| > 0 && s[0] == '\'' && s[|s| - 1] == '\''
  {
    if |s| > 0 {
      assert s[..1] == [s[0]];
      assert s[|s| - 1..] == [s[|s| - 1]];
    }
  }

  /** A string literal keeps every character, case and quotes included. */
  lemma ExprToLowerKeepsLiteral(s: string)
    requires |s| > 0 && s[0] == '\'' && s[|s| - 1] == '\''
    ensures ExprToLower(s) == s
  {
    IsQuotedAt(s);
  }

  /** Every other expression has each character lower-cased in place, so no
      upper-case letter is left. */
  lemma ExprToLowerLowersOthers(s: string)
    requires !(|s| > 0 && s[0] == '\'' && s[|s| - 1] == '\'')
    ensures |ExprToLower(s)| == |s|
    ensures forall i :: 0 <= i < |s| ==> ExprToLower(s)[i] == LowerChar(s[i]) && !IsUpper(ExprToLower(s)[i])
  {
    IsQuotedAt(s);
  }

  /** Normalising a default value twice is normalising it once. */
  lemma ExprToLowerIdempotent(s: string)
    ensures ExprToLower(ExprToLower(s)) == ExprToLower(s)
  {
    IsQuotedAt(s);
    if !IsQuoted(s) {
      var r := ToLower(s);
      IsQuotedAt(r);
      if |s| > 0 {
        LowerCharKeepsNonLetters(s[0], '\'');
        LowerCharKeepsNonLetters(s[|s| - 1], '\'');
      }
      assert !IsQuoted(r);
      ToLowerIdempotent(s);
    }
  }

  lemma ExprToLowerExampleKeyword()
    ensures ExprToLower("CURRENT_TIMESTAMP") == "current_timestamp"
  {
    var s, t := "CURRENT_TIMESTAMP", "current_timestamp";
    IsQuotedAt(s);
    assert ExprToLower(s) == ToLower(s);
    assert forall i :: 0 <= i < |s| ==> LowerChar(s[i]) == t[i];
  }

  lemma ExprToLowerExampleLiterals()
    ensures ExprToLower("'Active'") == "'Active'"
    ensures ExprToLower("'") == "'"
    ensures ExprToLower("'USER@x.com'") == "'USER@x.com'"
  {
    ExprToLowerKeepsLiteral("'Active'");
    ExprToLowerKeepsLiteral("'");
    ExprToLowerKeepsLiteral("'USER@x.com'");
  }
}
