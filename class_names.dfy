/**
 * `cn(...classNames)`: keeps the truthy arguments (`filter(Boolean)`) and joins
 * them with single spaces. Arguments are strings or `false`/`null`/`undefined`;
 * the empty string is falsy too, so it is dropped like them.
 */
module ClassNames {
  import opened Catalog

  datatype ClassArg = Classes(text: string) | Falsy

  predicate Truthy(a: ClassArg) {
    a.Classes? && a.text != ""
  }

  /** `classNames.filter(Boolean)`, as the list of kept strings, in order. */
  function Kept(args: seq<ClassArg>): (r: seq<string>)
    ensures |r| <= |args|
    ensures forall i :: 0 <= i < |r| ==> r[i] != "" && Classes(r[i]) in args
    ensures r == [] <==> forall i :: 0 <= i < |args| ==> !Truthy(args[i])
  {
    if args == [] then []
    else if Truthy(args[0]) then [args[0].text] + Kept(args[1..])
    else Kept(args[1..])
  }

  /** `parts.join(sep)`. */
  function Join(parts: seq<string>, sep: string): (r: string)
    ensures parts == [] ==> r == ""
    ensures |parts| == 1 ==> r == parts[0]
  {
    if parts == [] then ""
    else if |parts| == 1 then parts[0]
    else parts[0] + sep + Join(parts[1..], sep)
  }

  /** `cn(...args)`: the class string is empty exactly when every argument is falsy. */
  function Cn(args: seq<ClassArg>): (r: string)
    ensures r == "" <==> forall i :: 0 <= i < |args| ==> !Truthy(args[i])
  {
    JoinStartsWithFirst(Kept(args), " ");
    Join(Kept(args), " ")
  }

  /** The joined string starts with the first part. */
  lemma {:induction false} JoinStartsWithFirst(parts: seq<string>, sep: string)
    ensures parts != [] ==> parts[0] <= Join(parts, sep)
  {
  }

  /** A single argument is kept, as its text, exactly when it is truthy. */
  lemma KeptSingle(x: ClassArg)
    ensures Kept([x]) == if Truthy(x) then [x.text] else []
  {
    assert [x][1..] == [];
  }

  /** `filter(Boolean)` keeps every truthy argument and nothing else. */
  lemma {:induction false} KeptKeepsTruthy(args: seq<ClassArg>)
    ensures forall t :: t in Kept(args) <==> t != "" && Classes(t) in args
  {
    if args != [] {
      KeptKeepsTruthy(args[1..]);
      assert args == [args[0]] + args[1..];
    }
  }

  /** Joining two non-empty lists puts one separator between their joins. */
  lemma {:induction false} JoinAppend(a: seq<string>, b: seq<string>, sep: string)
    requires a != [] && b != []
    ensures Join(a + b, sep) == Join(a, sep) + sep + Join(b, sep)
  {
    var ab := a + b;
    assert |ab| >= 2 && ab[0] == a[0];
    assert Join(ab, sep) == a[0] + sep + Join(ab[1..], sep);
    if |a| == 1 {
      assert ab[1..] == b;
    } else {
      assert ab[1..] == a[1..] + b;
      JoinAppend(a[1..], b, sep);
      assert Join(a, sep) == a[0] + sep + Join(a[1..], sep);
    }
  }

  /** The class strings of two argument lists that each keep something are joined by one space. */
  lemma CnAppend(a: seq<ClassArg>, b: seq<ClassArg>)
    requires exists i :: 0 <= i < |a| && Truthy(a[i])
    requires exists j :: 0 <= j < |b| && Truthy(b[j])
    ensures Cn(a + b) == Cn(a) + " " + Cn(b)
  {
    KeptAppend(a, b);
    JoinAppend(Kept(a), Kept(b), " ");
  }

  lemma {:induction false} KeptAppend(a: seq<ClassArg>, b: seq<ClassArg>)
    ensures Kept(a + b) == Kept(a) + Kept(b)
  {
    if a != [] {
      assert (a + b)[1..] == a[1..] + b;
      KeptAppend(a[1..], b);
    } else {
      assert a + b == b;
    }
  }

  /** A falsy argument anywhere in the list leaves the class string as it was without it. */
  lemma CnSkipsFalsy(a: seq<ClassArg>, x: ClassArg, b: seq<ClassArg>)
    requires !Truthy(x)
    ensures Cn(a + [x] + b) == Cn(a + b)
  {
    KeptAppend(a + [x], b);
    KeptAppend(a, [x]);
    KeptAppend(a, b);
    assert [x][1..] == [];
    assert Kept([x]) == [];
    assert Kept(a + [x]) == Kept(a);
    assert Kept(a + [x] + b) == Kept(a + b);
  }

  /** `cond && text`: the class string when the condition holds, `false` otherwise. */
  function When(cond: bool, text: string): ClassArg {
    if cond then Classes(text) else Falsy
  }

  const OptionButtonBase := "group flex flex-col gap-3 rounded-2xl border border-white/10 p-3 text-left transition hover:-translate-y-0.5 hover:border-white/20 hover:bg-white/10"
  const OptionButtonActive := "border-white/40 bg-white/15 shadow-lg shadow-black/30"

  /** The classes of a background option's button; the active ones mark the selected option. */
  function OptionButtonClass(backgroundId: string, bg: BackgroundOption): string {
    Cn([Classes(OptionButtonBase), When(backgroundId == bg.id, OptionButtonActive)])
  }

  /** A button is highlighted exactly when its option is the selected one. */
  lemma OptionButtonHighlight(backgroundId: string, bg: BackgroundOption)
    ensures OptionButtonClass(backgroundId, bg) ==
              if backgroundId == bg.id then OptionButtonBase + " " + OptionButtonActive
              else OptionButtonBase
  {
    var args := [Classes(OptionButtonBase), When(backgroundId == bg.id, OptionButtonActive)];
    assert args[1..][1..] == [];
    var rest := Kept(args[1..]);
    assert rest == if backgroundId == bg.id then [OptionButtonActive] else [];
    assert Kept(args) == [OptionButtonBase] + rest;
    if backgroundId == bg.id {
      assert Kept(args)[1..] == [OptionButtonActive];
    }
  }
}
