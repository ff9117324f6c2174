/** The password form's state and its "generate" action. The random source
    is abstracted as a sequence of draws: each draw is the index of the
    alphabet character picked at that step. */
module PasswordForm {
  import opened CharacterClasses

  /** The validation message shown when no character class is selected. */
  const NoClassMessage: string := "Please select at least one character type"

  /** How many characters a loop bounded by `length` appends: none for a
      length of zero or below. */
  function DrawCount(length: int): (r: nat)
    ensures length <= r && (r == length || r == 0)
  {
    if length > 0 then length else 0
  }

  /** Every draw picks a position of the alphabet. */
  ghost predicate DrawsInRange(charset: string, draws: seq<nat>) {
    forall i | 0 <= i < |draws| :: draws[i] < |charset|
  }

  /** The password made from the first `n` draws, one character per draw. */
  function Drawn(charset: string, draws: seq<nat>, n: nat): (r: string)
    requires n <= |draws| && DrawsInRange(charset, draws)
    ensures |r| == n
    decreases n
  {
    if n == 0 then [] else Drawn(charset, draws, n - 1) + [charset[draws[n - 1]]]
  }

  /** Character `k` of the password is the alphabet character picked by draw `k`. */
  lemma {:induction false} DrawnAt(charset: string, draws: seq<nat>, n: nat, k: nat)
    requires n <= |draws| && DrawsInRange(charset, draws)
    requires k < n
    ensures Drawn(charset, draws, n)[k] == charset[draws[k]]
    decreases n
  {
    if k < n - 1 {
      DrawnAt(charset, draws, n - 1, k);
    }
  }

  /** Every character of the password occurs in the alphabet. */
  lemma DrawnInCharset(charset: string, draws: seq<nat>, n: nat)
    requires n <= |draws| && DrawsInRange(charset, draws)
    ensures forall k | 0 <= k < n :: Drawn(charset, draws, n)[k] in charset
  {
    forall k | 0 <= k < n ensures Drawn(charset, draws, n)[k] in charset {
      DrawnAt(charset, draws, n, k);
    }
  }

  /** The component's state: the chosen options, the last password and the
      validation message. */
  class PasswordGenerator {
    var length: int
    var includeUppercase: bool
    var includeLowercase: bool
    var includeNumbers: bool
    var includeSymbols: bool
    var generatedPassword: string
    var errorMessage: string

    /** The alphabet selected by the current flags. */
    function SelectedCharset(): (r: string)
      reads this
      ensures r == [] <==> !includeUppercase && !includeLowercase
                           && !includeNumbers && !includeSymbols
    {
      Charset(includeUppercase, includeLowercase, includeNumbers, includeSymbols)
    }

    /** The alphabet built by successive appends, one class per set flag. */
    method BuildCharset() returns (charset: string)
      ensures charset == SelectedCharset()
    {
      charset := "";
      if includeUppercase { charset := charset + Uppercase; }
      if includeLowercase { charset := charset + Lowercase; }
      if includeNumbers { charset := charset + Digits; }
      if includeSymbols { charset := charset + Symbols; }
    }

    /** The initial state: length 8, no class selected, nothing generated. */
    constructor ()
      ensures length == 8
      ensures !includeUppercase && !includeLowercase && !includeNumbers && !includeSymbols
      ensures generatedPassword == "" && errorMessage == ""
    {
      length := 8;
      includeUppercase, includeLowercase := false, false;
      includeNumbers, includeSymbols := false, false;
      generatedPassword, errorMessage := "", "";
    }

    /** Builds the alphabet from the flags; with an empty alphabet reports the
        validation error and clears the password, otherwise clears the error
        and appends one alphabet character per draw, `length` times. */
    method Generate(draws: seq<nat>)
      requires DrawsInRange(SelectedCharset(), draws)
      requires SelectedCharset() != [] ==> DrawCount(length) <= |draws|
      modifies this`generatedPassword, this`errorMessage
      ensures SelectedCharset() == [] ==>
        errorMessage == NoClassMessage && generatedPassword == ""
      ensures SelectedCharset() != [] ==>
        errorMessage == "" && generatedPassword == Drawn(SelectedCharset(), draws, DrawCount(length))
      ensures SelectedCharset() != [] ==> |generatedPassword| == DrawCount(length)
      ensures forall k | 0 <= k < |generatedPassword| :: generatedPassword[k] in SelectedCharset()
    {
      var charset := BuildCharset();

      if charset == "" {
        errorMessage := NoClassMessage;
        generatedPassword := "";
        return;
      }

      errorMessage := "";
      var password := "";
      var i := 0;
      while i < length
        invariant 0 <= i <= DrawCount(length)
        invariant password == Drawn(charset, draws, i)
      {
        password := password + [charset[draws[i]]];
        i := i + 1;
      }
      DrawnInCharset(charset, draws, i);
      generatedPassword := password;
    }
  }

  /** Generating from the initial state reports the validation error and
      leaves the password empty. */
  method GenerateFromInitialState() returns (error: string, password: string)
    ensures error == NoClassMessage && password == ""
  {
    var form := new PasswordGenerator();
    assert form.SelectedCharset() == [];
    form.Generate([]);
    error, password := form.errorMessage, form.generatedPassword;
  }

  /** With length 8 and uppercase, lowercase and digits selected, the alphabet
      has 62 characters and the password is 8 letters and digits. */
  method GenerateLettersAndDigits(draws: seq<nat>) returns (error: string, password: string)
    requires 8 <= |draws| && forall i | 0 <= i < |draws| :: draws[i] < 62
    ensures error == ""
    ensures |password| == 8
    ensures forall k | 0 <= k < 8 :: 'A' <= password[k] <= 'Z'
              || 'a' <= password[k] <= 'z' || '0' <= password[k] <= '9'
  {
    var form := new PasswordGenerator();
    form.includeUppercase, form.includeLowercase, form.includeNumbers := true, true, true;
    assert |form.SelectedCharset()| == 62;
    form.Generate(draws);
    error, password := form.errorMessage, form.generatedPassword;
    forall k | 0 <= k < 8
      ensures 'A' <= password[k] <= 'Z' || 'a' <= password[k] <= 'z' || '0' <= password[k] <= '9'
    {
      CharsetMembership(true, true, true, false, password[k]);
    }
  }
}
