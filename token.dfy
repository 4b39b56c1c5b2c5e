/** The token data model of the Lox scanner (src/token.rs), extended with the
    `Comment` kind that the scanner emits for `//`, and the keyword table
    that the scanner looks identifiers up in. */
module Tokens {
  import opened Wrappers

  datatype TokenType =
    // Single-character tokens
    | LeftParen | RightParen | LeftBrace | RightBrace | Comma | Dot
    | Minus | Plus | Semicolon | Slash | Star
    // One- or two-character tokens
    | Bang | BangEqual | Equal | EqualEqual
    | Greater | GreaterEqual | Less | LessEqual
    // Literals
    | Identifier | String | Number
    // Keywords
    | And | Class | Else | False | Fun | For | If | Nil
    | Or | Print | Return | Super | This | True | Var | While
    | EOF
    // A `//` comment running to the end of its line
    | Comment

  /** A token: its kind, the exact source text it was made from, the decoded
      literal of a String or Number token, and its 0-based row. */
  datatype Token = Token(tokenType: TokenType, lexeme: string, literal: Option<string>, line: nat)

  /** Token::new: a record of exactly the four given parts. */
  function New(tokenType: TokenType, lexeme: string, literal: Option<string>, line: nat): (t: Token)
    ensures t.tokenType == tokenType && t.lexeme == lexeme
    ensures t.literal == literal && t.line == line
  {
    Token(tokenType, lexeme, literal, line)
  }

  /** Position of a kind in the declaration of TokenType. */
  function Ordinal(t: TokenType): nat
  {
    match t
    case LeftParen => 0     case RightParen => 1    case LeftBrace => 2   case RightBrace => 3
    case Comma => 4         case Dot => 5           case Minus => 6       case Plus => 7
    case Semicolon => 8     case Slash => 9         case Star => 10
    case Bang => 11         case BangEqual => 12    case Equal => 13      case EqualEqual => 14
    case Greater => 15      case GreaterEqual => 16 case Less => 17       case LessEqual => 18
    case Identifier => 19   case String => 20       case Number => 21
    case And => 22          case Class => 23        case Else => 24       case False => 25
    case Fun => 26          case For => 27          case If => 28         case Nil => 29
    case Or => 30           case Print => 31        case Return => 32     case Super => 33
    case This => 34         case True => 35         case Var => 36        case While => 37
    case EOF => 38          case Comment => 39
  }

  /** The kind declared at position `k`. */
  function KindAt(k: nat): TokenType
    requires k < 40
  {
    match k
    case 0 => LeftParen     case 1 => RightParen    case 2 => LeftBrace   case 3 => RightBrace
    case 4 => Comma         case 5 => Dot           case 6 => Minus       case 7 => Plus
    case 8 => Semicolon     case 9 => Slash         case 10 => Star
    case 11 => Bang         case 12 => BangEqual    case 13 => Equal      case 14 => EqualEqual
    case 15 => Greater      case 16 => GreaterEqual case 17 => Less       case 18 => LessEqual
    case 19 => Identifier   case 20 => String       case 21 => Number
    case 22 => And          case 23 => Class        case 24 => Else       case 25 => False
    case 26 => Fun          case 27 => For          case 28 => If         case 29 => Nil
    case 30 => Or           case 31 => Print        case 32 => Return     case 33 => Super
    case 34 => This         case 35 => True         case 36 => Var        case 37 => While
    case 38 => EOF          case _ => Comment
  }

  // The groups that the comments of the declaration name.
  predicate IsSingleCharacter(t: TokenType)
  {
    t.LeftParen? || t.RightParen? || t.LeftBrace? || t.RightBrace? || t.Comma? || t.Dot?
    || t.Minus? || t.Plus? || t.Semicolon? || t.Slash? || t.Star?
  }
  predicate IsOneOrTwoCharacter(t: TokenType)
  {
    t.Bang? || t.BangEqual? || t.Equal? || t.EqualEqual?
    || t.Greater? || t.GreaterEqual? || t.Less? || t.LessEqual?
  }
  predicate IsLiteral(t: TokenType) { t.Identifier? || t.String? || t.Number? }
  predicate IsKeyword(t: TokenType)
  {
    t.And? || t.Class? || t.Else? || t.False? || t.Fun? || t.For? || t.If? || t.Nil?
    || t.Or? || t.Print? || t.Return? || t.Super? || t.This? || t.True? || t.Var? || t.While?
  }

  /** TokenType is a closed set of exactly 40 distinct kinds: every kind has a
      position below 40, and the kind at that position is itself. */
  lemma KindAtOrdinal(t: TokenType)
    ensures Ordinal(t) < 40 && KindAt(Ordinal(t)) == t
  {
    match t
    case LeftParen => case RightParen => case LeftBrace => case RightBrace =>
    case Comma => case Dot => case Minus => case Plus =>
    case Semicolon => case Slash => case Star => case Bang =>
    case BangEqual => case Equal => case EqualEqual => case Greater =>
    case GreaterEqual => case Less => case LessEqual => case Identifier =>
    case String => case Number => case And => case Class =>
    case Else => case False => case Fun => case For =>
    case If => case Nil => case Or => case Print =>
    case Return => case Super => case This => case True =>
    case Var => case While => case EOF => case Comment =>
  }

  /** Each position below 40 holds a kind whose position it is. */
  lemma OrdinalKindAt(k: nat)
    requires k < 40
    ensures Ordinal(KindAt(k)) == k
  {
  }

  /** The groups are consecutive blocks of positions: 11 single-character
      kinds, 8 one-or-two-character kinds, 3 literal kinds and 16 keyword
      kinds, followed by EOF and Comment; so each kind is in exactly one
      group. */
  lemma TokenTypeGroups(t: TokenType)
    ensures IsSingleCharacter(t) <==> Ordinal(t) < 11
    ensures IsOneOrTwoCharacter(t) <==> 11 <= Ordinal(t) < 19
    ensures IsLiteral(t) <==> 19 <= Ordinal(t) < 22
    ensures IsKeyword(t) <==> 22 <= Ordinal(t) < 38
    ensures t == EOF <==> Ordinal(t) == 38
    ensures t == Comment <==> Ordinal(t) == 39
  {
    match t
    case LeftParen => case RightParen => case LeftBrace => case RightBrace =>
    case Comma => case Dot => case Minus => case Plus =>
    case Semicolon => case Slash => case Star => case Bang =>
    case BangEqual => case Equal => case EqualEqual => case Greater =>
    case GreaterEqual => case Less => case LessEqual => case Identifier =>
    case String => case Number => case And => case Class =>
    case Else => case False => case Fun => case For =>
    case If => case Nil => case Or => case Print =>
    case Return => case Super => case This => case True =>
    case Var => case While => case EOF => case Comment =>
  }

  /** The keyword table looked up by the scanner (KEYWORDS.get): the kind
      of each of the sixteen reserved words, spelled in lower case. */
  function Keyword(text: string): Option<TokenType>
  {
    match text
    case "and" => Some(And)
    case "class" => Some(Class)
    case "else" => Some(Else)
    case "false" => Some(False)
    case "fun" => Some(Fun)
    case "for" => Some(For)
    case "if" => Some(If)
    case "nil" => Some(Nil)
    case "or" => Some(Or)
    case "print" => Some(Print)
    case "return" => Some(Return)
    case "super" => Some(Super)
    case "this" => Some(This)
    case "true" => Some(True)
    case "var" => Some(Var)
    case "while" => Some(While)
    case _ => None
  }

  /** The reserved word of a keyword kind, as written in Lox source. */
  function Spelling(t: TokenType): string
    requires IsKeyword(t)
  {
    match t
    case And => "and"
    case Class => "class"
    case Else => "else"
    case False => "false"
    case Fun => "fun"
    case For => "for"
    case If => "if"
    case Nil => "nil"
    case Or => "or"
    case Print => "print"
    case Return => "return"
    case Super => "super"
    case This => "this"
    case True => "true"
    case Var => "var"
    case While => "while"
  }

  /** Every keyword kind is in the table under its spelling. */
  lemma KeywordKindsAreInTable(t: TokenType)
    requires IsKeyword(t)
    ensures Keyword(Spelling(t)) == Some(t)
  {
  }

  /** Every entry of the table is a keyword kind stored under its own
      spelling, so the table and Spelling are inverse to each other. */
  lemma KeywordTableEntries(s: string)
    requires Keyword(s).Some?
    ensures var t := Keyword(s).value; IsKeyword(t) && Spelling(t) == s
  {
  }
}
