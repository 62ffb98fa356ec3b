/** The production code generator
    (src/UrlShortener.Application/Services/SecureShortCodeGenerator.cs).
    The cryptographic random source is an input: each attempt consumes one
    draw of `length` bytes. */
module SecureCodeGeneration {
  import opened Wrappers
  import opened Text
  import InMemoryStore

  newtype byte = x: int | 0 <= x < 256

  /** 57 characters: A-Z without I and O, a-z without l, 2-9. */
  const Alphabet: string := "ABCDEFGHJKLMNPQRSTUVWXYZabcdefghijkmnopqrstuvwxyz23456789"

  const MaxAttempts: nat := 8

  /** The code that `randomBytes` map to, one character per byte. */
  function Encode(randomBytes: seq<byte>): (code: string)
    ensures |code| == |randomBytes|
    ensures forall i :: 0 <= i < |code| ==> code[i] in Alphabet
  {
    seq(|randomBytes|, i requires 0 <= i < |randomBytes| => Alphabet[randomBytes[i] as int % |Alphabet|])
  }

  /** The first of the (at most eight) candidates that is not taken. */
  function UniqueCode(draws: seq<seq<byte>>, taken: set<string>): Result<string, GenerationError> {
    if draws == [] then Err(UniqueCodeExhausted)
    else if Encode(draws[0]) !in taken then Ok(Encode(draws[0]))
    else UniqueCode(draws[1..], taken)
  }

  /** The `InvalidOperationException` thrown after the last attempt. */
  datatype GenerationError = UniqueCodeExhausted

  /** `UniqueCode` answers the first free candidate, and fails exactly when
      every candidate is taken. */
  lemma {:induction false} UniqueCodeIsFirstFree(draws: seq<seq<byte>>, taken: set<string>)
    ensures UniqueCode(draws, taken).Err? <==> forall k :: 0 <= k < |draws| ==> Encode(draws[k]) in taken
    ensures UniqueCode(draws, taken).Ok? ==>
      exists k :: && 0 <= k < |draws| && UniqueCode(draws, taken).value == Encode(draws[k])
                  && Encode(draws[k]) !in taken
                  && forall j :: 0 <= j < k ==> Encode(draws[j]) in taken
  {
    if draws != [] && Encode(draws[0]) in taken {
      UniqueCodeIsFirstFree(draws[1..], taken);
      if UniqueCode(draws, taken).Ok? {
        var k :| && 0 <= k < |draws[1..]| && UniqueCode(draws[1..], taken).value == Encode(draws[1..][k])
                 && Encode(draws[1..][k]) !in taken
                 && forall j :: 0 <= j < k ==> Encode(draws[1..][j]) in taken;
        assert forall j :: 0 <= j < k + 1 ==> Encode(draws[j]) in taken by {
          forall j | 0 <= j < k + 1 ensures Encode(draws[j]) in taken {
            if j > 0 { assert draws[j] == draws[1..][j - 1]; }
          }
        }
        assert draws[k + 1] == draws[1..][k];
      } else {
        forall k | 0 <= k < |draws| ensures Encode(draws[k]) in taken {
          if k > 0 { assert draws[k] == draws[1..][k - 1]; }
        }
      }
    }
  }

  /** The alphabet's three runs: upper-case letters, lower-case letters, digits. */
  const UpperRun := "ABCDEFGHJKLMNPQRSTUVWXYZ"
  const LowerRun := "abcdefghijkmnopqrstuvwxyz"
  const DigitRun := "23456789"

  lemma AlphabetRuns()
    ensures Alphabet == UpperRun + LowerRun + DigitRun
    ensures |UpperRun| == 24 && |LowerRun| == 25 && |DigitRun| == 8
  {
  }

  /** The character classes the alphabet draws from: upper-case letters
      without I and O, lower-case letters without l, and the digits 2-9. */
  predicate IsCodeChar(c: char) {
    || ('A' <= c <= 'Z' && c != 'I' && c != 'O')
    || ('a' <= c <= 'z' && c != 'l')
    || ('2' <= c <= '9')
  }

  /** Which run position `i` of the alphabet falls in. */
  lemma RunAt(i: int)
    requires 0 <= i < 57
    ensures i < 24 ==> Alphabet[i] == UpperRun[i]
    ensures 24 <= i < 49 ==> Alphabet[i] == LowerRun[i - 24]
    ensures 49 <= i ==> Alphabet[i] == DigitRun[i - 49]
  {
    AlphabetRuns();
  }

  /** Every character of the alphabet belongs to one of the three classes. */
  lemma AlphabetChars()
    ensures |Alphabet| == 57
    ensures forall i :: 0 <= i < |Alphabet| ==> IsCodeChar(Alphabet[i])
  {
    AlphabetRuns();
    forall k | 0 <= k < |UpperRun| ensures IsCodeChar(UpperRun[k]) { }
    forall k | 0 <= k < |LowerRun| ensures IsCodeChar(LowerRun[k]) { }
    forall k | 0 <= k < |DigitRun| ensures IsCodeChar(DigitRun[k]) { }
    forall i | 0 <= i < |Alphabet| ensures IsCodeChar(Alphabet[i]) {
      RunAt(i);
    }
  }

  predicate Ascending(s: string) {
    forall i, j :: 0 <= i < j < |s| ==> s[i] < s[j]
  }

  predicate Within(s: string, lo: char, hi: char) {
    forall k :: 0 <= k < |s| ==> lo <= s[k] <= hi
  }

  /** A text whose neighbours ascend is strictly ascending, hence has
      pairwise distinct characters. */
  lemma {:induction false} AscendingIsDistinct(s: string)
    requires forall k :: 0 <= k < |s| - 1 ==> s[k] < s[k + 1]
    ensures Ascending(s)
  {
    if |s| > 1 {
      var init := s[..|s| - 1];
      AscendingIsDistinct(init);
      forall i, j | 0 <= i < j < |s| ensures s[i] < s[j] {
        if j < |s| - 1 {
          assert s[i] == init[i] && s[j] == init[j];
        } else if i < |s| - 2 {
          assert s[i] == init[i] && s[|s| - 2] == init[|s| - 2];
        }
      }
    }
  }

  /** Each run ascends. */
  lemma RunsAscend()
    ensures Ascending(UpperRun) && Ascending(LowerRun) && Ascending(DigitRun)
  {
    AscendingIsDistinct(UpperRun);
    AscendingIsDistinct(LowerRun);
    AscendingIsDistinct(DigitRun);
  }

  /** Each run stays inside its own character range. */
  lemma RunRanges()
    ensures Within(UpperRun, 'A', 'Z') && Within(LowerRun, 'a', 'z') && Within(DigitRun, '2', '9')
  {
  }

  /** Two positions of the alphabet hold different characters: inside a
      run because it ascends, across runs because their ranges are apart. */
  lemma DistinctPair(i: int, j: int)
    requires 0 <= i < j < 57
    requires Ascending(UpperRun) && Ascending(LowerRun) && Ascending(DigitRun)
    requires Within(UpperRun, 'A', 'Z') && Within(LowerRun, 'a', 'z') && Within(DigitRun, '2', '9')
    ensures Alphabet[i] != Alphabet[j]
  {
    RunAt(i);
    RunAt(j);
    if j < 24 {
      assert UpperRun[i] < UpperRun[j];
    } else if j < 49 {
      if i < 24 {
        assert UpperRun[i] <= 'Z' < 'a' <= LowerRun[j - 24];
      } else {
        assert LowerRun[i - 24] < LowerRun[j - 24];
      }
    } else if i < 24 {
      assert DigitRun[j - 49] <= '9' < 'A' <= UpperRun[i];
    } else if i < 49 {
      assert DigitRun[j - 49] <= '9' < 'a' <= LowerRun[i - 24];
    } else {
      assert DigitRun[i - 49] < DigitRun[j - 49];
    }
  }

  /** The alphabet has 57 pairwise distinct characters. */
  lemma AlphabetIsDistinct()
    ensures |Alphabet| == 57
    ensures forall i, j :: 0 <= i < j < |Alphabet| ==> Alphabet[i] != Alphabet[j]
  {
    AlphabetRuns();
    RunsAscend();
    RunRanges();
    forall i, j | 0 <= i < j < |Alphabet| ensures Alphabet[i] != Alphabet[j] {
      DistinctPair(i, j);
    }
  }

  /** No visually ambiguous character is in the alphabet, and none of its
      characters is white space. */
  lemma AlphabetIsUnambiguous()
    ensures '0' !in Alphabet && 'O' !in Alphabet && '1' !in Alphabet && 'l' !in Alphabet && 'I' !in Alphabet
    ensures forall i :: 0 <= i < |Alphabet| ==> !IsWhiteSpace(Alphabet[i])
  {
    AlphabetChars();
  }

  /** A non-empty code from the alphabet is never blank. */
  lemma EncodedCodeIsNotBlank(randomBytes: seq<byte>)
    requires |randomBytes| > 0
    ensures !IsBlank(Some(Encode(randomBytes)))
  {
    AlphabetIsUnambiguous();
    var code := Encode(randomBytes);
    assert code[0] in Alphabet;
  }

  /** The random source: `MaxAttempts` draws of `length` bytes each. */
  ghost predicate RandomDraws(draws: seq<seq<byte>>, length: nat) {
    |draws| == MaxAttempts && forall k :: 0 <= k < |draws| ==> |draws[k]| == length
  }

  class SecureShortCodeGenerator {
    const repository: InMemoryStore.InMemoryShortUrlRepository

    constructor (repository: InMemoryStore.InMemoryShortUrlRepository)
      ensures this.repository == repository
    {
      this.repository := repository;
    }

    /** Generates up to eight candidates, asking the repository after each
        whether it is taken; returns the first free one, or fails. `attempts`
        is the number of existence checks made. */
    method GenerateUniqueCode(length: nat, randomDraws: seq<seq<byte>>)
      returns (code: Result<string, GenerationError>, attempts: nat)
      requires RandomDraws(randomDraws, length)
      ensures 1 <= attempts <= MaxAttempts
      ensures forall k :: 0 <= k < attempts - 1 ==> Encode(randomDraws[k]) in repository.urls
      ensures code.Ok? <==> Encode(randomDraws[attempts - 1]) !in repository.urls
      ensures code.Ok? ==> code.value == Encode(randomDraws[attempts - 1]) && |code.value| == length
      ensures code.Err? ==> attempts == MaxAttempts
      ensures code == UniqueCode(randomDraws, repository.urls.Keys)
    {
      var i := 0;
      while i < MaxAttempts
        invariant 0 <= i <= MaxAttempts
        invariant forall k :: 0 <= k < i ==> Encode(randomDraws[k]) in repository.urls
        invariant UniqueCode(randomDraws, repository.urls.Keys) == UniqueCode(randomDraws[i..], repository.urls.Keys)
      {
        var candidate := Generate(randomDraws[i]);
        attempts := i + 1;
        var taken := repository.CodeExists(candidate);
        if !taken {
          return Ok(candidate), attempts;
        }
        assert randomDraws[i..][1..] == randomDraws[i + 1..];
        i := i + 1;
      }
      assert randomDraws[i..] == [];
      return Err(UniqueCodeExhausted), MaxAttempts;
    }

    /** Maps each random byte to `Alphabet[byte % 57]`. */
    static method Generate(randomBytes: seq<byte>) returns (code: string)
      ensures |code| == |randomBytes|
      ensures forall i :: 0 <= i < |randomBytes| ==> code[i] == Alphabet[randomBytes[i] as int % |Alphabet|]
      ensures code == Encode(randomBytes)
    {
      var chars := new char[|randomBytes|];
      for i := 0 to |randomBytes|
        invariant forall k :: 0 <= k < i ==> chars[k] == Alphabet[randomBytes[k] as int % |Alphabet|]
      {
        chars[i] := Alphabet[randomBytes[i] as int % |Alphabet|];
      }
      code := chars[..];
    }
  }
}
