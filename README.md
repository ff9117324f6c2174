# Password generator form, modelled in Dafny

The repository is a browser password generator. Its one piece of logic is
the form component's "generate" action. The component keeps seven pieces of
state: the requested `length`, four flags that select the character classes
(uppercase, lowercase, digits, symbols), the last `generatedPassword` and a
validation `errorMessage`. On "generate" it

1. builds the alphabet by appending, in the fixed order uppercase A–Z,
   lowercase a–z, digits 0–9 and a fixed string of 29 punctuation symbols
   (the constant `Symbols`), each class whose flag is set;
2. if the alphabet is empty, sets the message "Please select at least one
   character type", clears the password and stops;
3. otherwise clears the message and appends `length` characters, each picked
   by a random index into the alphabet, then stores the password.

The model has two modules:

- `CharacterClasses` (`charset.dfy`): the four class strings, the pure
  alphabet function `Charset`, and a reference definition `Span` of a range
  of consecutive characters. Lemmas prove the alphabet's size, when it is
  empty, that the letter and digit classes are exactly the ranges A–Z, a–z
  and 0–9 in order, and which characters the alphabet contains.
- `PasswordForm` (`password_form.dfy`): the class `PasswordGenerator` that
  holds the component state as mutable fields, `BuildCharset`, the method
  `Generate` with its loop, and the pure function `Drawn` that specifies the
  loop's result. Two client methods state the initial-state scenario and a
  letters-and-digits scenario and prove them from `Generate`'s contract and
  the alphabet lemmas, not from its body.

The random source is a parameter. `Generate` takes `draws`, a sequence of
natural numbers. Draw `i` stands for the index that the source computes for
character `i` with `Math.floor(Math.random() * charset.length)`. The one
thing the model assumes of that expression is its range: every draw is a
valid position in the alphabet (`DrawsInRange`). When the alphabet is
non-empty it also needs at least as many draws as characters requested.
When the alphabet is empty, only an empty sequence of draws is in range.
That path draws nothing, as in the source.

`length` is an unbounded `int`. The loop runs while `i < length`, so a
length of zero or below gives the empty password (`DrawCount`). The 1–12
bounds of the slider are not a precondition of the generator.

React state setters are modelled as direct assignments to the fields.
The `modifies` clause of `Generate` names only the password and the
message fields, so Dafny guarantees that generation never changes `length`
or the four flags.

The component (`src/app/ui/password-form.tsx`) has no strength label and no
"copied" indicator, so the model has neither.

## Model

| member | source | states |
|---|---|---|
| `CharacterClasses.Charset` | src/app/ui/password-form.tsx:22-26 | the alphabet is the enabled classes appended to "" in the order uppercase, lowercase, digits, symbols; its contract states its size, 26·[upper] + 26·[lower] + 10·[digits] + 29·[symbols], so nothing is deduplicated |
| `CharacterClasses.CharsetEmpty` | src/app/ui/password-form.tsx:22-28 | the alphabet is empty if and only if all four flags are false, so the validation branch is taken exactly then |
| `CharacterClasses.CharsetMembership` | src/app/ui/password-form.tsx:22-26 | a character is in the alphabet if and only if it lies in an enabled class: A–Z when uppercase is set, a–z when lowercase is set, 0–9 when digits are set, or the symbol string when symbols are set |
| `CharacterClasses.UppercaseIsRange` | src/app/ui/password-form.tsx:23 | the uppercase class is exactly the 26 characters A to Z in increasing order |
| `CharacterClasses.LowercaseIsRange` | src/app/ui/password-form.tsx:24 | the lowercase class is exactly the 26 characters a to z in increasing order |
| `CharacterClasses.DigitsIsRange` | src/app/ui/password-form.tsx:25 | the digit class is exactly the 10 characters 0 to 9 in increasing order |
| `CharacterClasses.SymbolsAreNotAlphanumeric` | src/app/ui/password-form.tsx:26 | no symbol is a letter or a digit, so the four classes do not overlap |
| `CharacterClasses.SpanMembership` | src/app/ui/password-form.tsx:23-25 | a character is in the span of `n` characters from `first` if and only if its code lies in `[first, first + n)` |
| `CharacterClasses.SpanAt` | src/app/ui/password-form.tsx:23-25 | position `k` of a span holds the character `first + k` |
| `CharacterClasses.SpanCharacterisation` | src/app/ui/password-form.tsx:23-25 | a string whose position `k` holds `first + k` everywhere equals the span from `first` |
| `PasswordForm.DrawCount` | src/app/ui/password-form.tsx:36 | the number of iterations of the loop bounded by `length`: a natural number that is at least `length` and equals either `length` or 0, which is max(length, 0) |
| `PasswordForm.PasswordGenerator.SelectedCharset` | src/app/ui/password-form.tsx:22-28 | the alphabet of the current four flags; it is empty if and only if all four flags are false |
| `PasswordForm.PasswordGenerator.BuildCharset` | src/app/ui/password-form.tsx:22-26 | the alphabet built by successive appends under the four flags equals the alphabet function `Charset` of the current flags |
| `PasswordForm.PasswordGenerator.constructor` | src/app/ui/password-form.tsx:13-19 | initial state: length 8, all four flags false, empty password and empty message |
| `PasswordForm.PasswordGenerator.Generate` | src/app/ui/password-form.tsx:21-41 | with an empty alphabet the message becomes "Please select at least one character type" and the password ""; otherwise the message becomes "" and the password is the one made from the first max(length, 0) draws, which has exactly max(length, 0) characters; every character of the password is in the alphabet; only the password and the message change |
| `PasswordForm.Drawn` | src/app/ui/password-form.tsx:35-38 | the password made from `n` draws has exactly `n` characters |
| `PasswordForm.DrawnAt` | src/app/ui/password-form.tsx:37 | character `k` of the password is the alphabet character at the index chosen by draw `k` |
| `PasswordForm.DrawnInCharset` | src/app/ui/password-form.tsx:37 | every character of the password occurs in the alphabet |
| `PasswordForm.GenerateFromInitialState` | src/app/ui/password-form.tsx:13-32 | generating from the initial state (no class selected) gives the validation message and an empty password |
| `PasswordForm.GenerateLettersAndDigits` | src/app/ui/password-form.tsx:21-41 | with length 8 and uppercase, lowercase and digits selected (a 62-character alphabet), generation clears the message and yields 8 characters, each a letter or a digit |

## Left out

- Copying to the clipboard (`copyToClipboard`, src/app/ui/password-form.tsx:43-52): asynchronous browser I/O and console logging, no generator state involved.
- `Math.random()` and the floating-point `Math.floor(Math.random() * charset.length)` at src/app/ui/password-form.tsx:37: replaced by the `draws` parameter with its range precondition. Uniformity of the draws is a probabilistic property and is not modelled.
- The slider thumb position at src/app/ui/password-form.tsx:100: floating-point styling.
- All JSX markup, the UI toolkit components, the `cn` helper and the event handlers that call the state setters (src/app/ui/password-form.tsx:54-154): presentation only. Clients of the model assign the public fields directly.
- The slider's 1–12 bounds (src/app/ui/password-form.tsx:84-85): they are enforced by the widget, not by the generator, so `Generate` accepts any integer length.
- React's deferred state updates and re-rendering: the setters are modelled as immediate field assignments, which is what the rendered state shows after the handler returns.
- `src/app/page.tsx`: page layout only, no logic.
- A strength label and a "copied" indicator: the component has no code for either, so there is nothing to model.
- Fractional lengths: `length` is a JavaScript number (src/app/ui/password-form.tsx:13, :88), modelled as an `int`. The slider has step 1 (src/app/ui/password-form.tsx:86), so only integers reach the generator; a fractional length would run ceil(length) iterations of the loop at src/app/ui/password-form.tsx:36, which the model does not represent.
