/** The parser's keyword tables: for a kind of syntactic position and a
    language, the set of keywords that may start a token there.

    The keyword, directive and macro-operator strings live in classes that are
    not part of this model; they are modelled as the constructors of one
    enumeration, so two different table entries are always different values. */
module KeywordSets {
  import opened Wrappers

  /** Every entry the tables hold: C and C++ keywords, the preprocessor
      directives, and the macro operator `defined()`. */
  datatype Keyword =
    // keywords
    | Inline | Auto | Register | Static | Extern | Mutable | Typedef | Const
    | Volatile | Signed | Unsigned | Short | Long | C99Complex | C99Imaginary
    | Char | WcharT | C99Bool | Int | Float | Double | Void | Struct | Union
    | Enum | Virtual | Explicit | Friend | Bool | Typename | Class | Asm
    | Template | Using | Namespace | Export | Sizeof | New | Delete
    | DynamicCast | StaticCast | ReinterpretCast | ConstCast | Typeid | True
    | False | This | Operator | Throw | For | Break | Case | Goto | Switch
    | While | If | Continue | Default | Return | Else | Do | Try | Catch
    | Public | Protected | Private | Restrict | And | AndEq | Bitand | Bitor
    | Compl | Not | NotEq | Or | OrEq | Xor | XorEq
    // preprocessor directives
    | PoundBlank | PoundDefine | PoundUndef | PoundIf | PoundIfdef
    | PoundIfndef | PoundElse | PoundEndif | PoundInclude | PoundLine
    | PoundError | PoundPragma | PoundElif
    // the one macro-only entry
    | DefinedOperator

  datatype ParserLanguage = C | Cpp

  /** The keys the lookup dispatches on; `Unhandled` stands for any key it does
      not recognise (including a null key). */
  datatype KeywordSetKey =
    | Empty | DeclSpecifierSequence | Declaration | Statement | BaseSpecifier
    | Member | PostUsing | FunctionModifier | NamespaceOnly | Macro
    | PpDirective | Expression | All | Unhandled

  const EMPTY_TABLE: set<Keyword> := {}

  const NAMESPACE_ONLY_SET: set<Keyword> := {Namespace}

  const MACRO_ONLY: set<Keyword> := {DefinedOperator}

  const DECL_SPECIFIER_SEQUENCE_C: set<Keyword> :=
    {Inline, Auto, Register, Static, Extern, Mutable, Typedef, Const, Volatile,
     Signed, Unsigned, Short, Long, C99Complex, C99Imaginary, Char, WcharT,
     C99Bool, Int, Float, Double, Void, Struct, Union, Enum}

  /** All of C, less the C99 type keywords, plus the C++-only specifiers. */
  const DECL_SPECIFIER_SEQUENCE_CPP: set<Keyword> :=
    (DECL_SPECIFIER_SEQUENCE_C - {C99Complex, C99Imaginary, C99Bool})
    + {Virtual, Mutable, Explicit, Friend, Bool, Typename, Class}

  const DECLARATION_CPP: set<Keyword> :=
    DECL_SPECIFIER_SEQUENCE_CPP + {Asm, Template, Using, Namespace, Export}

  const DECLARATION_C: set<Keyword> := DECL_SPECIFIER_SEQUENCE_C + {Asm}

  const EXPRESSION_C: set<Keyword> :=
    {Char, WcharT, Short, Int, Long, Signed, Unsigned, Float, Double, Sizeof}

  const EXPRESSION_CPP: set<Keyword> :=
    EXPRESSION_C
    + {Bool, New, Delete, Typename, DynamicCast, StaticCast, ReinterpretCast,
       ConstCast, Typeid, True, False, This, Operator, Throw}

  const STATEMENT_C: set<Keyword> :=
    DECLARATION_C + EXPRESSION_C
    + {For, Break, Case, Goto, Switch, While, If, Continue, Default, Return,
       Else, Do}

  const STATEMENT_CPP: set<Keyword> :=
    DECLARATION_CPP + EXPRESSION_CPP
    + {Try, For, Break, Case, Catch, Goto, Switch, While, If, Continue,
       Default, Return, Else, Do}

  const BASE_SPECIFIER_CPP: set<Keyword> := {Public, Protected, Private, Virtual}

  const CLASS_MEMBER: set<Keyword> :=
    DECL_SPECIFIER_SEQUENCE_CPP + {Public, Protected, Private}

  const POST_USING_CPP: set<Keyword> := {Namespace, Typename}

  /** The C table is the very empty set the EMPTY key returns. */
  const FUNCTION_MODIFIER_C: set<Keyword> := EMPTY_TABLE

  const FUNCTION_MODIFIER_CPP: set<Keyword> :=
    FUNCTION_MODIFIER_C + {Throw, Try, Volatile}

  const PP_DIRECTIVES: set<Keyword> :=
    {PoundBlank, PoundDefine, PoundUndef, PoundIf, PoundIfdef, PoundIfndef,
     PoundElse, PoundEndif, PoundInclude, PoundLine, PoundError, PoundPragma,
     PoundElif}

  const ALL_C: set<Keyword> :=
    PP_DIRECTIVES
    + {Auto, Break, Case, Char, Const, Continue, Default, Delete, Do, Double,
       Else, Enum, Extern, Float, For, Goto, If, Inline, Int, Long, Register,
       Restrict, Return, Short, Signed, Sizeof, Static, Struct, Switch,
       Typedef, Union, Unsigned, Void, Volatile, While, C99Bool, C99Complex,
       C99Imaginary}

  const ALL_CPP: set<Keyword> :=
    PP_DIRECTIVES
    + {And, AndEq, Asm, Auto, Bitand, Bitor, Bool, Break, Case, Catch, Char,
       Class, Compl, Const, ConstCast, Continue, Default, Delete, Do, Double,
       DynamicCast, Else, Enum, Explicit, Export, Extern, False, Float, For,
       Friend, Goto, If, Inline, Int, Long, Mutable, Namespace, New, Not,
       NotEq, Operator, Or, OrEq, Private, Protected, Public, Register,
       ReinterpretCast, Return, Short, Signed, Sizeof, Static, StaticCast,
       Struct, Switch, Template, This, Throw, True, Try, Typedef, Typeid,
       Typename, Union, Unsigned, Using, Virtual, Void, Volatile, WcharT,
       While, Xor, XorEq}

  /** The per-language tables, one function per `Hashtable` of the source. */

  /** `_Bool` is a decl-specifier only in C and `bool` only in C++. */
  function DeclSpecifierSequenceTable(language: ParserLanguage): (t: set<Keyword>)
    ensures C99Bool in t <==> language == C
    ensures Bool in t <==> language == Cpp
  {
    BoolSpellings();
    match language
    case C => DECL_SPECIFIER_SEQUENCE_C
    case Cpp => DECL_SPECIFIER_SEQUENCE_CPP
  }

  /** A declaration may start with any decl-specifier of its language, or
      with `asm`. */
  function DeclarationTable(language: ParserLanguage): (t: set<Keyword>)
    ensures DeclSpecifierSequenceTable(language) <= t && Asm in t
  {
    match language
    case C => DECLARATION_C
    case Cpp => DECLARATION_CPP
  }

  /** A statement may start with anything a declaration or an expression of
      the same language may start with. */
  function StatementTable(language: ParserLanguage): (t: set<Keyword>)
    ensures DeclarationTable(language) + ExpressionTable(language) <= t
  {
    match language
    case C => STATEMENT_C
    case Cpp => STATEMENT_CPP
  }

  /** C has no function modifiers; C++ has `throw`, `try` and `volatile`. */
  function FunctionModifierTable(language: ParserLanguage): (t: set<Keyword>)
    ensures t == {} <==> language == C
    ensures t <= {Throw, Try, Volatile}
  {
    assert Throw in FUNCTION_MODIFIER_CPP && FUNCTION_MODIFIER_C == {};
    match language
    case C => FUNCTION_MODIFIER_C
    case Cpp => FUNCTION_MODIFIER_CPP
  }

  /** Every language's expressions may start with the C expression keywords. */
  function ExpressionTable(language: ParserLanguage): (t: set<Keyword>)
    ensures EXPRESSION_C <= t
  {
    match language
    case C => EXPRESSION_C
    case Cpp => EXPRESSION_CPP
  }

  /** Both ALL tables hold every preprocessor directive. */
  function AllTable(language: ParserLanguage): (t: set<Keyword>)
    ensures PP_DIRECTIVES <= t
  {
    match language
    case C => ALL_C
    case Cpp => ALL_CPP
  }

  /** The lookup. `None` is the null the source returns for a key it does not
      handle; every handled key yields a table for both languages. */
  function GetKeywords(kind: KeywordSetKey, language: ParserLanguage): (r: Option<set<Keyword>>)
    ensures r.None? <==> kind == Unhandled
    ensures kind == Empty ==> r == Some({})
    ensures kind == DeclSpecifierSequence ==> r == Some(DeclSpecifierSequenceTable(language))
    ensures kind == Declaration ==> r == Some(DeclarationTable(language))
    ensures kind == Statement ==> r == Some(StatementTable(language))
    ensures kind == BaseSpecifier ==> r == Some(BASE_SPECIFIER_CPP)
    ensures kind == Member ==> r == Some(if language == Cpp then CLASS_MEMBER else {})
    ensures kind == PostUsing ==> r == Some(POST_USING_CPP)
    ensures kind == FunctionModifier ==> r == Some(FunctionModifierTable(language))
    ensures kind == NamespaceOnly ==> r == Some(NAMESPACE_ONLY_SET)
    ensures kind == Macro ==> r == Some(MACRO_ONLY)
    ensures kind == PpDirective ==> r == Some(PP_DIRECTIVES)
    ensures kind == Expression ==> r == Some(ExpressionTable(language))
    ensures kind == All ==> r == Some(AllTable(language))
  {
    match kind
    case Empty => Some(EMPTY_TABLE)
    case DeclSpecifierSequence => Some(DeclSpecifierSequenceTable(language))
    case Declaration => Some(DeclarationTable(language))
    case Statement => Some(StatementTable(language))
    case BaseSpecifier => Some(BASE_SPECIFIER_CPP)
    case Member => if language == Cpp then Some(CLASS_MEMBER) else Some(EMPTY_TABLE)
    case PostUsing => Some(POST_USING_CPP)
    case FunctionModifier => Some(FunctionModifierTable(language))
    case NamespaceOnly => Some(NAMESPACE_ONLY_SET)
    case Macro => Some(MACRO_ONLY)
    case PpDirective => Some(PP_DIRECTIVES)
    case Expression => Some(ExpressionTable(language))
    case All => Some(AllTable(language))
    case Unhandled => None
  }

  /** The table for a key the lookup handles. */
  function Table(kind: KeywordSetKey, language: ParserLanguage): set<Keyword>
    requires kind != Unhandled
  {
    GetKeywords(kind, language).value
  }

  /** The C++ member table is the C++ decl-specifier table plus the three
      access specifiers, and C has no member table entries at all. */
  lemma MemberTable()
    ensures Table(Member, C) == {}
    ensures Table(Member, Cpp) == Table(DeclSpecifierSequence, Cpp) + {Public, Protected, Private}
  {
  }

  /** The C++ decl-specifiers are the C ones without the three C99 type
      keywords, plus the C++-only specifiers; in particular `_Bool` is not a
      C++ decl-specifier while `bool` is. */
  lemma CppDeclSpecifiersFromC()
    ensures Table(DeclSpecifierSequence, Cpp)
         == (Table(DeclSpecifierSequence, C) - {C99Complex, C99Imaginary, C99Bool})
            + {Virtual, Mutable, Explicit, Friend, Bool, Typename, Class}
    ensures C99Bool in Table(DeclSpecifierSequence, C)
    ensures C99Bool !in Table(DeclSpecifierSequence, Cpp)
    ensures Bool in Table(DeclSpecifierSequence, Cpp)
  {
    BoolSpellings();
    assert Table(DeclSpecifierSequence, C) == DECL_SPECIFIER_SEQUENCE_C;
    assert Table(DeclSpecifierSequence, Cpp) == DECL_SPECIFIER_SEQUENCE_CPP;
  }

  lemma BoolSpellings()
    ensures C99Bool in DECL_SPECIFIER_SEQUENCE_C
    ensures C99Bool !in DECL_SPECIFIER_SEQUENCE_CPP
    ensures Bool in DECL_SPECIFIER_SEQUENCE_CPP
  {
  }

  /** A declaration may start with any decl-specifier, or with `asm`. */
  lemma DeclarationCoversDeclSpecifiers(language: ParserLanguage)
    ensures Table(DeclSpecifierSequence, language) <= Table(Declaration, language)
    ensures Asm in Table(Declaration, language)
    ensures Asm !in Table(DeclSpecifierSequence, language)
  {
    AsmIsNoDeclSpecifier();
    assert Table(DeclSpecifierSequence, language) == DeclSpecifierSequenceTable(language);
    assert Table(Declaration, language) == DeclarationTable(language);
  }

  lemma AsmIsNoDeclSpecifier()
    ensures Asm !in DECL_SPECIFIER_SEQUENCE_C
    ensures Asm !in DECL_SPECIFIER_SEQUENCE_CPP
  {
  }

  /** A statement may start with anything a declaration or an expression of
      the same language may start with. */
  lemma StatementCoversDeclarationAndExpression(language: ParserLanguage)
    ensures Table(Declaration, language) + Table(Expression, language) <= Table(Statement, language)
  {
  }

  /** Every C expression keyword is a C++ expression keyword. */
  lemma ExpressionCInExpressionCpp()
    ensures Table(Expression, C) <= Table(Expression, Cpp)
  {
  }

  lemma FunctionModifierTables()
    ensures Table(FunctionModifier, C) == {}
    ensures Table(FunctionModifier, Cpp) == {Throw, Try, Volatile}
  {
  }

  /** Both ALL tables list every preprocessor directive. */
  lemma AllContainsDirectives(language: ParserLanguage)
    ensures Table(PpDirective, language) <= Table(All, language)
  {
  }

  /** The keys whose table does not depend on the language: BASE_SPECIFIER and
      POST_USING give their C++ tables for C as well. */
  lemma LanguageIndependentKeys(kind: KeywordSetKey)
    requires kind in {Empty, BaseSpecifier, PostUsing, NamespaceOnly, Macro, PpDirective}
    ensures GetKeywords(kind, C) == GetKeywords(kind, Cpp)
    ensures kind == BaseSpecifier ==> Table(kind, C) == {Public, Protected, Private, Virtual}
  {
  }

  /** The C ALL table is a list of its own, not the union of the position
      tables: `asm` may start a C statement but is not in ALL_C. */
  lemma AsmMissingFromAllC()
    ensures Asm in Table(Statement, C) && Asm !in Table(All, C)
  {
    AsmNotInAllC();
    assert Table(All, C) == ALL_C;
    assert Table(Statement, C) == STATEMENT_C;
  }

  lemma AsmNotInAllC()
    ensures Asm !in ALL_C
  {
  }

  /** `delete`, a C++ keyword, is in ALL_C but starts no C statement. */
  lemma DeleteInAllC()
    ensures Delete in Table(All, C) && Delete !in Table(Statement, C)
  {
    DeleteStartsNoCStatement();
    assert Table(Statement, C) == STATEMENT_C;
  }

  lemma DeleteStartsNoCStatement()
    ensures Delete !in STATEMENT_C
  {
  }

  /** The C decl-specifier table holds `mutable`, a C++ storage class. */
  lemma MutableIsACDeclSpecifier()
    ensures Mutable in Table(DeclSpecifierSequence, C)
  {
  }
}
