# Optionals — a Dafny model

The repository is a single Swift teaching file, `Optionals/ViewController.swift`,
whose `viewDidLoad` walks through Swift's optional values: declaring an optional,
assigning nil, optional-returning accessors (`first`, a dictionary subscript)
beside a non-optional one (an array subscript), optional chaining `?.`, forced
unwrapping `!` behind a nil test, and nil-coalescing `??`. It ends with a local
computed property `fullName` that joins `optionalName ?? "John"` and
`lastName ?? "Doe"` with one space and is re-evaluated on every read.

The model has three modules:

- `Optional` (`Optional.dfy`): the optional type as `Option<T>` and the
  operations the file uses on it, as total functions (`ForceUnwrap` and
  `Subscript` carry the preconditions under which Swift does not trap).
- `StringJoin` (`StringJoin.dfy`): the library function `join(separator, elements)`
  with a two-part join and the length of any join, plus two facts about a
  concatenation `x + [c] + y`: character counts add up, and splitting at the
  first `c` gives `x` and `y` back. The full-name lemmas in `ViewController`
  (`FullNameSpaces`, `FullNameSplits`) apply these to the two-part join.
- `ViewController` (`ViewController.dfy`): `ResolveFullName`, the expression
  behind `fullName`, with its properties; a class `Locals` holding the optional
  variables that `viewDidLoad` reassigns (`optionalName`, `structuredName`,
  `lastName`), with one method per assignment and the getters `FullName` and
  `StructuredFirst` that read the current fields; and the method `ViewDidLoad`,
  which runs the demonstration step by step and returns, as values, what each
  printing line shows.

The full name holds exactly one space only when neither token has a space of its
own; `FullNameSpaces` states the general count (the spaces of both tokens plus
one) and the one-space case as a consequence.

## Model

| member | source | states |
|---|---|---|
| Optional.CoalesceCharacterization | Optionals/ViewController.swift:120 | carries the meaning of `Optional.Coalesce` (`??`): `o ?? d` is `d` for nil; it equals `d` exactly when `o` is nil or wraps `d`, so a present value, an empty string included, is never replaced; for a non-nil `o` it is the unwrapped value |
| Optional.ForceUnwrap | Optionals/ViewController.swift:110-112 | `o!` is only allowed on a non-nil optional and gives back exactly the value it wraps |
| Optional.GuardedUnwrap | Optionals/ViewController.swift:110-112 | after an `!= nil` test, `o!` is the wrapped value and agrees with `o ?? d` for any default |
| Optional.Chain | Optionals/ViewController.swift:98-102 | `o?.member` is nil exactly when `o` is nil (short-circuit) |
| Optional.ChainCoalesce | Optionals/ViewController.swift:87-88 | reading a member through `?.` and then coalescing with the member of the default equals coalescing first and reading the member |
| Optional.First | Optionals/ViewController.swift:41-46 | `first` is nil exactly for the empty array |
| Optional.FirstIsSubscriptZero | Optionals/ViewController.swift:44-54 | on a non-empty array `first` wraps the element at index 0, and a non-nil `first` implies a non-empty array |
| Optional.Lookup | Optionals/ViewController.swift:60-71 | a dictionary subscript is non-nil exactly for a key the dictionary holds |
| Optional.LookupCharacterization | Optionals/ViewController.swift:62-71 | the subscript wraps `v` exactly when the key is bound to `v`, and is nil exactly for a missing key |
| Optional.Subscript | Optionals/ViewController.swift:51-58 | an array subscript is defined only for `0 <= i < count` and yields the element at index `i`: an element of the array, the one `first` finds after dropping the first `i` elements |
| StringJoin.JoinPair | Optionals/ViewController.swift:120 | carries the meaning of `StringJoin.Join` (`join`) for the two-part call of the getter: joining two parts is the first part, the separator once, then the second part |
| StringJoin.JoinLength | Optionals/ViewController.swift:120 | for `StringJoin.Join` (`join`) over any number of parts: a join of n parts is as long as the parts together plus n - 1 separators |
| StringJoin.CountAppend | Optionals/ViewController.swift:120 | occurrences of a character in a concatenation add up |
| StringJoin.SplitAtFirstJoined | Optionals/ViewController.swift:120 | splitting `x + sep + y` at the first separator character returns `x` and `y` when `x` has none |
| ViewController.ResolveFullName | Optionals/ViewController.swift:119-121 | the full name is the first token (`optionalName` or "John"), one space, the second token (`lastName` or "Doe"), total over all four present/absent combinations |
| ViewController.FullNameLength | Optionals/ViewController.swift:119-121 | the full name is as long as its two tokens plus one |
| ViewController.FullNameSpaces | Optionals/ViewController.swift:120 | the full name holds the spaces of its tokens plus exactly one; with space-free tokens it holds exactly one |
| ViewController.FullNameSplits | Optionals/ViewController.swift:120 | splitting the full name at its first space gives back both resolved tokens when the first has no space |
| ViewController.FullNameDeterminesTokens | Optionals/ViewController.swift:120 | with space-free first tokens, equal full names come from equal resolved tokens |
| ViewController.FullNameCases | Optionals/ViewController.swift:117-125 | nil/nil is "John Doe", "Chrisna"/nil is "Chrisna Doe", nil/"Aing" is "John Aing", "Chrisna"/"Aing" is "Chrisna Aing", and two present empty strings give " " |
| ViewController.Locals.constructor | Optionals/ViewController.swift:17 | `optionalName` starts with its initializer; `structuredName` and `lastName` start nil |
| ViewController.Locals.FullName | Optionals/ViewController.swift:119-121 | the getter is computed from the current `optionalName` and `lastName` fields on each read |
| ViewController.Locals.StructuredFirst | Optionals/ViewController.swift:98-102 | `structuredName?.first` is nil exactly while `structuredName` is nil, and otherwise wraps its `first` |
| ViewController.Locals.AssignOptionalName | Optionals/ViewController.swift:117 | assigning `optionalName` leaves the other variables alone and the next `fullName` uses the new value |
| ViewController.Locals.AssignStructuredName | Optionals/ViewController.swift:101 | assigning `structuredName` leaves the other variables and `fullName` unchanged |
| ViewController.Locals.AssignLastName | Optionals/ViewController.swift:124-125 | assigning `lastName` keeps `optionalName`, and the next read of `fullName` reflects the new `lastName` (no caching) |
| ViewController.NamesSubscriptFiveOutOfRange | Optionals/ViewController.swift:54-58 | `names[0]` is "Amanda", and index 5 lies outside the four-element array, so `names[5]` breaks the subscript's precondition |
| ViewController.ViewDidLoad | Optionals/ViewController.swift:10-126 | each printing line shows the value the file's comments expect: "Chrisna", nil after the nil assignment, `first` as "Amanda" and nil, `names[0]` as "Amanda", `points["A"]` as 1 and `points["B"]` as nil, the uppercase forms through `?.` and `!`, `structuredName?.first` nil then "Chrisna", the guarded forced unwrap "Chrisna", then "Chrisna Doe" and after `lastName = "Aing"` "Chrisna Aing" |

## Left out

- `super.viewDidLoad()` and the UIKit view-controller lifecycle: framework plumbing with no logic here.
- The `println` output and how string interpolation renders an optional: `ViewDidLoad` returns the shown values instead of formatting them.
- The three lines that do not compile (`name = nil`, `optionalName = 25`, `optionalName.uppercaseString`): Dafny's type checker rejects the same programs, so `ViewDidLoad` omits them.
- The fatal error of `names[5]`: it is captured only as the precondition of `Subscript` and by `NamesSubscriptFiveOutOfRange`; `ViewDidLoad` skips that line and carries on, as the demonstrations after it assume.
- `uppercaseString`: Unicode case mapping in a library that is not part of this model; `ViewDidLoad` takes it as a parameter `uppercase` and states its results in terms of it.
- The implicitly unwrapped optional `String!` of line 107: a typing convenience with no behaviour of its own beyond forced unwrapping, which `ForceUnwrap` models.
- Swift strings are modelled as sequences of Unicode code points (`seq<char>`), not as Swift `Character`s (extended grapheme clusters compared by canonical equivalence): the lengths, space counts, the split at the first space and string equality in `FullNameLength`, `FullNameSpaces`, `FullNameSplits`, `FullNameDeterminesTokens` and `JoinLength` are per code point. A last name that begins with a combining mark, such as U+0301, merges with the separating space into one Swift `Character`, so Swift's character count and split differ from these.
- The non-optional locals `name` and `t` are plain local variables of `ViewDidLoad` rather than fields of `Locals`: they are never read through the getter.
