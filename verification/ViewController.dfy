/** The view controller's `viewDidLoad`: a run of demonstrations of optionals,
    ending with the `fullName` getter, which joins two nil-coalesced name parts
    with a space and is recomputed from the current variables on every read. */
module ViewController {
  import opened Optional
  import opened StringJoin

  /** Token used when `optionalName` is nil. */
  const DefaultFirstName: string := "John"
  /** Token used when `lastName` is nil. */
  const DefaultLastName: string := "Doe"

  /** The local struct `Name` of the optional-chaining demonstration. */
  datatype Name = Name(first: string, last: string)

  /** The expression behind `fullName`: `join(" ", [optionalName ?? "John", lastName ?? "Doe"])`. */
  function ResolveFullName(optionalName: Option<string>, lastName: Option<string>): (r: string)
    ensures r == Coalesce(optionalName, DefaultFirstName) + " " + Coalesce(lastName, DefaultLastName)
  {
    JoinPair(" ", Coalesce(optionalName, DefaultFirstName), Coalesce(lastName, DefaultLastName));
    Join(" ", [Coalesce(optionalName, DefaultFirstName), Coalesce(lastName, DefaultLastName)])
  }

  /** The full name is as long as its two tokens plus the one separator, in
      every one of the four present/absent combinations. */
  lemma FullNameLength(optionalName: Option<string>, lastName: Option<string>)
    ensures |ResolveFullName(optionalName, lastName)|
         == |Coalesce(optionalName, DefaultFirstName)| + |Coalesce(lastName, DefaultLastName)| + 1
  {
  }

  /** The full name holds the spaces of its tokens plus exactly one more; so when
      neither token has a space, it has exactly one. */
  lemma FullNameSpaces(optionalName: Option<string>, lastName: Option<string>)
    ensures Count(' ', ResolveFullName(optionalName, lastName))
         == Count(' ', Coalesce(optionalName, DefaultFirstName)) + Count(' ', Coalesce(lastName, DefaultLastName)) + 1
    ensures ' ' !in Coalesce(optionalName, DefaultFirstName) && ' ' !in Coalesce(lastName, DefaultLastName)
        ==> Count(' ', ResolveFullName(optionalName, lastName)) == 1
  {
    var first, last := Coalesce(optionalName, DefaultFirstName), Coalesce(lastName, DefaultLastName);
    CountAppend(' ', first + " ", last);
    CountAppend(' ', first, " ");
    assert Count(' ', " ") == 1;
    CountZero(' ', first);
    CountZero(' ', last);
  }

  /** Splitting the full name at its first space recovers both tokens whenever the
      first token has no space of its own. */
  lemma FullNameSplits(optionalName: Option<string>, lastName: Option<string>)
    requires ' ' !in Coalesce(optionalName, DefaultFirstName)
    ensures SplitAtFirst(' ', ResolveFullName(optionalName, lastName))
         == Some((Coalesce(optionalName, DefaultFirstName), Coalesce(lastName, DefaultLastName)))
  {
    SplitAtFirstJoined(' ', Coalesce(optionalName, DefaultFirstName), Coalesce(lastName, DefaultLastName));
  }

  /** With space-free first tokens, equal full names come from equal tokens. */
  lemma FullNameDeterminesTokens(g1: Option<string>, l1: Option<string>, g2: Option<string>, l2: Option<string>)
    requires ' ' !in Coalesce(g1, DefaultFirstName) && ' ' !in Coalesce(g2, DefaultFirstName)
    requires ResolveFullName(g1, l1) == ResolveFullName(g2, l2)
    ensures Coalesce(g1, DefaultFirstName) == Coalesce(g2, DefaultFirstName)
    ensures Coalesce(l1, DefaultLastName) == Coalesce(l2, DefaultLastName)
  {
    FullNameSplits(g1, l1);
    FullNameSplits(g2, l2);
  }

  /** The four present/absent combinations, and a present empty token that is kept. */
  lemma FullNameCases()
    ensures ResolveFullName(None, None) == "John Doe"
    ensures ResolveFullName(Some("Chrisna"), None) == "Chrisna Doe"
    ensures ResolveFullName(None, Some("Aing")) == "John Aing"
    ensures ResolveFullName(Some("Chrisna"), Some("Aing")) == "Chrisna Aing"
    ensures ResolveFullName(Some(""), Some("")) == " "
  {
  }

  /** The optional local variables of `viewDidLoad`. `fullName` is a getter
      over two of them, so it reads the fields each time and caches nothing. */
  class Locals {
    var optionalName: Option<string>
    var structuredName: Option<Name>
    var lastName: Option<string>

    /** `var optionalName: String? = ...`; the other two start as nil, as a
        `var x: T?` without an initializer does. */
    constructor (optionalName0: Option<string>)
      ensures optionalName == optionalName0 && structuredName == None && lastName == None
    {
      optionalName := optionalName0;
      structuredName := None;
      lastName := None;
    }

    /** The computed property `fullName`. */
    function FullName(): (r: string)
      reads this
      ensures r == Coalesce(optionalName, DefaultFirstName) + " " + Coalesce(lastName, DefaultLastName)
    {
      ResolveFullName(optionalName, lastName)
    }

    /** `structuredName?.first` */
    function StructuredFirst(): (r: Option<string>)
      reads this
      ensures r == None <==> structuredName == None
      ensures structuredName != None ==> r == Some(structuredName.value.first)
    {
      Chain(structuredName, (n: Name) => n.first)
    }

    /** `optionalName = v` */
    method AssignOptionalName(v: Option<string>)
      modifies this
      ensures optionalName == v
      ensures structuredName == old(structuredName) && lastName == old(lastName)
      ensures FullName() == ResolveFullName(v, old(lastName))
    {
      optionalName := v;
    }

    /** `structuredName = v` */
    method AssignStructuredName(v: Option<Name>)
      modifies this
      ensures structuredName == v
      ensures optionalName == old(optionalName) && lastName == old(lastName)
      ensures FullName() == old(FullName())
    {
      structuredName := v;
    }

    /** `lastName = v`: the next read of `fullName` sees `v`, and `optionalName` is kept. */
    method AssignLastName(v: Option<string>)
      modifies this
      ensures lastName == v
      ensures optionalName == old(optionalName) && structuredName == old(structuredName)
      ensures FullName() == ResolveFullName(old(optionalName), v)
    {
      lastName := v;
    }
  }

  /** `names` of the demonstration. */
  function Names(): seq<string> { ["Amanda", "Bryan", "Chris", "Derek"] }

  /** `points` of the demonstration. */
  function Points(): map<string, int> { map["A" := 1, "C" := 3, "E" := 5] }

  /** `names[5]` is outside the four-element array, so the subscript's
      precondition rules it out: that line is the fatal error of the demonstration. */
  lemma NamesSubscriptFiveOutOfRange()
    ensures 0 <= 0 < |Names()| && Subscript(Names(), 0) == "Amanda"
    ensures !(0 <= 5 < |Names()|)
  {
  }

  /** What each printing line of `viewDidLoad` shows, as values. */
  datatype Shown = Shown(
    name: string,
    optionalName: Option<string>,
    nilOptionalName: Option<string>,
    firstInPopulated: Option<string>,
    firstInEmpty: Option<string>,
    valueForExistingIndex: string,
    valueForExistingKey: Option<int>,
    valueForMissingKey: Option<int>,
    uppercaseName: string,
    uppercaseChained: Option<string>,
    uppercaseForced: string,
    structuredFirstNil: Option<string>,
    structuredFirstFilled: Option<string>,
    forcedUnwrapping: Option<string>,
    incompleteFullName: string,
    newFullName: string)

  /** `viewDidLoad` without its three compile-error lines and without the
      out-of-range subscript. `uppercase` stands for the library's `uppercaseString`.
      `forcedUnwrapping` is nil when the guarded line does not print. */
  method ViewDidLoad(uppercase: string -> string) returns (shown: Shown)
    ensures shown.name == "Chrisna" && shown.optionalName == Some("Chrisna")
    ensures shown.nilOptionalName == None
    ensures shown.firstInPopulated == Some("Amanda") && shown.firstInEmpty == None
    ensures shown.valueForExistingIndex == "Amanda"
    ensures shown.valueForExistingKey == Some(1) && shown.valueForMissingKey == None
    ensures shown.uppercaseName == uppercase("Chrisna")
    ensures shown.uppercaseChained == Some(uppercase("Chrisna"))
    ensures shown.uppercaseForced == uppercase("Chrisna")
    ensures shown.structuredFirstNil == None && shown.structuredFirstFilled == Some("Chrisna")
    ensures shown.forcedUnwrapping == Some("Chrisna")
    ensures shown.incompleteFullName == "Chrisna Doe"
    ensures shown.newFullName == "Chrisna Aing"
  {
    var name: string := "Chrisna";
    var locals := new Locals(Some("Chrisna"));
    var shownName, shownOptional := name, locals.optionalName;

    locals.AssignOptionalName(None);
    var shownNil := locals.optionalName;

    var names := Names();
    var noNames: seq<string> := [];
    var firstInPopulated, firstInEmpty := First(names), First(noNames);

    var t := Subscript(names, 0);
    var valueForExistingIndex := t;

    var points := Points();
    var value := Lookup(points, "A");
    var missingValue := Lookup(points, "B");

    name := "Chrisna";
    var uppercaseName := uppercase(name);
    locals.AssignOptionalName(Some("Chrisna"));
    var uppercaseChained := Chain(locals.optionalName, uppercase);
    var uppercaseForced := uppercase(ForceUnwrap(locals.optionalName));

    var structuredFirstNil := locals.StructuredFirst();
    locals.AssignStructuredName(Some(Name("Chrisna", "Aing")));
    var structuredFirstFilled := locals.StructuredFirst();

    var forcedUnwrapping: Option<string> := None;
    if locals.optionalName != None {
      forcedUnwrapping := Some(ForceUnwrap(locals.optionalName));
    }

    locals.AssignOptionalName(Some("Chrisna"));
    var incompleteFullName := locals.FullName();
    locals.AssignLastName(Some("Aing"));
    var newFullName := locals.FullName();

    shown := Shown(shownName, shownOptional, shownNil, firstInPopulated, firstInEmpty,
      valueForExistingIndex, value, missingValue, uppercaseName, uppercaseChained, uppercaseForced,
      structuredFirstNil, structuredFirstFilled, forcedUnwrapping, incompleteFullName, newFullName);
  }
}
