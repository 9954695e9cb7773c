/**
 * The auth service's user helpers: login-history pagination, the password
 * change rules, and the random password given to accounts created through a
 * social network.
 */
module UserServices {
  import opened Wrappers
  import opened Seqs

  /** `check_repeated_password`: the password and its repetition agree. */
  function CheckRepeatedPassword(password: string, repeatedPassword: string): (r: bool)
    ensures r <==> password == repeatedPassword
  {
    if password != repeatedPassword then false else true
  }

  // ---------------------------------------------------------------- pagination

  /**
   * `calculate_offset`: the half-open row range of a page. The endpoint's
   * query parameters are validated to be at least 1.
   */
  function CalculateOffset(pageSize: int, pageNumber: int): (r: (int, int))
    requires pageSize >= 1 && pageNumber >= 1
    ensures 0 <= r.0 && r.1 - r.0 == pageSize
    ensures pageNumber == 1 ==> r.0 == 0
  {
    var offsetMin := (pageNumber - 1) * pageSize;
    (offsetMin, offsetMin + pageSize)
  }

  /** Consecutive pages follow each other with no gap and no overlap. */
  lemma PagesTile(pageSize: int, pageNumber: int)
    requires pageSize >= 1 && pageNumber >= 1
    ensures CalculateOffset(pageSize, pageNumber + 1).0 == CalculateOffset(pageSize, pageNumber).1
  {
  }

  /** Each row index lies on exactly one page: the page `index / pageSize + 1`. */
  lemma PageOfRow(pageSize: int, pageNumber: int, index: int)
    requires pageSize >= 1 && pageNumber >= 1 && index >= 0
    ensures CalculateOffset(pageSize, pageNumber).0 <= index < CalculateOffset(pageSize, pageNumber).1
            <==> pageNumber == index / pageSize + 1
  {
    var q := index / pageSize;
    assert index == q * pageSize + index % pageSize;
    var lo := (pageNumber - 1) * pageSize;
    if pageNumber - 1 < q {
      assert (pageNumber - 1) * pageSize + pageSize <= q * pageSize by {
        assert pageNumber <= q;
      }
    } else if pageNumber - 1 > q {
      assert (q + 1) * pageSize <= (pageNumber - 1) * pageSize by {
        assert q + 1 <= pageNumber - 1;
      }
    }
  }

  /**
   * `calc_previous_and_next_pages` as written: a previous page unless on the
   * first, and a next page only when `count // (page_size * page_number) > 1`.
   */
  function CalcPreviousAndNextPages(pageNumber: int, pageSize: int, count: int): (r: (Option<int>, Option<int>))
    requires pageSize >= 1 && pageNumber >= 1 && count >= 0
    ensures r.0.None? <==> pageNumber == 1
    ensures r.0.Some? ==> r.0.value == pageNumber - 1 && r.0.value >= 1
    ensures r.1.Some? ==> r.1.value == pageNumber + 1
  {
    var previous := if pageNumber != 1 then Some(pageNumber - 1) else None;
    var nextPage := if count / (pageSize * pageNumber) > 1 then Some(pageNumber + 1) else None;
    (previous, nextPage)
  }

  /** As written, a next page is offered exactly when the rows fill at least twice the rows up to this page. */
  lemma NextPageAsWritten(pageNumber: int, pageSize: int, count: int)
    requires pageSize >= 1 && pageNumber >= 1 && count >= 0
    ensures CalcPreviousAndNextPages(pageNumber, pageSize, count).1.Some? <==> count >= 2 * (pageSize * pageNumber)
  {
    var n := pageSize * pageNumber;
    assert n >= 1 by {
      assert pageSize * pageNumber >= pageSize * 1;
    }
    var q := count / n;
    assert count == q * n + count % n;
    if q > 1 {
      assert q * n >= 2 * n;
    } else {
      assert q * n <= 1 * n;
    }
  }

  /** The default page size of 2 on page 1 with 3 rows: the row on page 2 exists, yet no next page is offered. */
  lemma NextPageMissedExample()
    ensures CalculateOffset(2, 2).0 < 3
    ensures CalcPreviousAndNextPages(1, 2, 3).1 == None
  {
  }

  /** The next page as intended: offered exactly when some row lies beyond this page. */
  function NextPageIntended(pageNumber: int, pageSize: int, count: int): (r: Option<int>)
    requires pageSize >= 1 && pageNumber >= 1 && count >= 0
    ensures r.Some? ==> r.value == pageNumber + 1
    ensures r.Some? <==> CalculateOffset(pageSize, pageNumber + 1).0 < count
  {
    if count > pageSize * pageNumber then Some(pageNumber + 1) else None
  }

  /** Whenever the code as written offers a next page, the intended rule offers it too; never the reverse mistake. */
  lemma AsWrittenNextPageIsSound(pageNumber: int, pageSize: int, count: int)
    requires pageSize >= 1 && pageNumber >= 1 && count >= 0
    ensures CalcPreviousAndNextPages(pageNumber, pageSize, count).1.Some? ==>
              NextPageIntended(pageNumber, pageSize, count) == CalcPreviousAndNextPages(pageNumber, pageSize, count).1
  {
    NextPageAsWritten(pageNumber, pageSize, count);
    assert pageSize * pageNumber >= 1 by {
      assert pageSize * pageNumber >= pageSize * 1;
    }
  }

  // ---------------------------------------------------------- password change

  /** The validated body of a change-password request. */
  datatype PasswordChange = PasswordChange(username: string, password: string, repeatedOldPassword: string, newPassword: string)

  datatype UpdateOutcome =
    | Rejected                 // `return False`
    | Updated(username: string) // the `User` built from the request
    | AttributeError           // no such user: `None.password`

  /**
   * The checks of `update_password`, in their short-circuit order: the
   * repetition first, then the stored hash (`None` when the user is not found),
   * then that the new password differs from the old.
   */
  function UpdateDecision(dto: PasswordChange, storedHash: Option<string>, verify: (string, string) -> bool): (r: UpdateOutcome)
    ensures r.Updated? <==>
              dto.password == dto.repeatedOldPassword && storedHash.Some? &&
              verify(storedHash.value, dto.password) && dto.password != dto.newPassword
    ensures r.Updated? ==> r.username == dto.username
    ensures r.AttributeError? <==> dto.password == dto.repeatedOldPassword && storedHash.None?
    ensures dto.password != dto.repeatedOldPassword ==> r.Rejected?
  {
    if !CheckRepeatedPassword(dto.password, dto.repeatedOldPassword) then Rejected
    else if storedHash.None? then AttributeError
    else if !verify(storedHash.value, dto.password) then Rejected
    else if dto.password == dto.newPassword then Rejected
    else Updated(dto.username)
  }

  /** The users table, reduced to each username's password hash. */
  class UserAccounts {
    var passwordHashes: map<string, string>

    constructor (passwordHashes: map<string, string>)
      ensures this.passwordHashes == passwordHashes
    {
      this.passwordHashes := passwordHashes;
    }

    /**
     * `update_password`: a rejected request writes nothing; an accepted one
     * stores the fresh hash of the new password for that username only.
     * `check_password_hash` is the oracle `verify`; `newHash` is what
     * `generate_password_hash` returns for the new password.
     */
    method UpdatePassword(dto: PasswordChange, verify: (string, string) -> bool, newHash: string) returns (r: UpdateOutcome)
      modifies this
      ensures r == UpdateDecision(dto, if dto.username in old(passwordHashes) then Some(old(passwordHashes)[dto.username]) else None, verify)
      ensures r.Updated? ==> passwordHashes == old(passwordHashes)[dto.username := newHash]
      ensures !r.Updated? ==> passwordHashes == old(passwordHashes)
    {
      var stored := if dto.username in passwordHashes then Some(passwordHashes[dto.username]) else None;
      r := UpdateDecision(dto, stored, verify);
      if r.Updated? {
        passwordHashes := passwordHashes[dto.username := newHash];
      }
    }
  }

  // --------------------------------------------------------- random passwords

  /** `string.ascii_lowercase`: "a" to "z" in order. */
  const AsciiLowercase: string := seq(26, i requires 0 <= i < 26 => ('a' as int + i) as char)
  /** `string.ascii_uppercase`: "A" to "Z" in order. */
  const AsciiUppercase: string := seq(26, i requires 0 <= i < 26 => ('A' as int + i) as char)
  /** `string.digits`: "0" to "9" in order. */
  const Digits: string := seq(10, i requires 0 <= i < 10 => ('0' as int + i) as char)

  /** `string.ascii_letters + string.digits`. */
  const Alphabet: string := AsciiLowercase + AsciiUppercase + Digits

  const PasswordLength: nat := 16

  predicate IsAlphanumeric(c: char) {
    ('a' <= c <= 'z') || ('A' <= c <= 'Z') || ('0' <= c <= '9')
  }

  lemma LowercaseRange(c: char)
    ensures c in AsciiLowercase <==> 'a' <= c <= 'z'
  {
    if 'a' <= c <= 'z' {
      assert AsciiLowercase[c as int - 'a' as int] == c;
    }
  }

  lemma UppercaseRange(c: char)
    ensures c in AsciiUppercase <==> 'A' <= c <= 'Z'
  {
    if 'A' <= c <= 'Z' {
      assert AsciiUppercase[c as int - 'A' as int] == c;
    }
  }

  lemma DigitsRange(c: char)
    ensures c in Digits <==> '0' <= c <= '9'
  {
    if '0' <= c <= '9' {
      assert Digits[c as int - '0' as int] == c;
    }
  }

  /** The alphabet is exactly the ASCII letters and digits. */
  lemma AlphabetIsAlphanumeric(c: char)
    ensures c in Alphabet <==> IsAlphanumeric(c)
  {
    LowercaseRange(c);
    UppercaseRange(c);
    DigitsRange(c);
  }

  /**
   * `_generate_random_password`: sixteen `secrets.choice` draws from the
   * alphabet; `picks` are the drawn positions.
   */
  function GenerateRandomPassword(picks: seq<nat>): (r: string)
    requires |picks| == PasswordLength
    requires forall i :: 0 <= i < |picks| ==> picks[i] < |Alphabet|
    ensures |r| == PasswordLength
    ensures forall i :: 0 <= i < |r| ==> IsAlphanumeric(r[i])
  {
    var r := seq(PasswordLength, i requires 0 <= i < PasswordLength => Alphabet[picks[i]]);
    assert forall i :: 0 <= i < |r| ==> r[i] in Alphabet;
    forall i | 0 <= i < |r|
      ensures IsAlphanumeric(r[i])
    {
      AlphabetIsAlphanumeric(r[i]);
    }
    r
  }

  /** Every sixteen-character string of letters and digits can come out. */
  lemma EveryPasswordReachable(password: string)
    requires |password| == PasswordLength
    requires forall i :: 0 <= i < |password| ==> IsAlphanumeric(password[i])
    ensures exists picks: seq<nat> ::
              |picks| == PasswordLength && (forall i :: 0 <= i < |picks| ==> picks[i] < |Alphabet|) &&
              GenerateRandomPassword(picks) == password
  {
    forall i | 0 <= i < |password|
      ensures password[i] in Alphabet
    {
      AlphabetIsAlphanumeric(password[i]);
    }
    var picks := seq(PasswordLength, i requires 0 <= i < PasswordLength => IndexOf(Alphabet, password[i]));
    assert GenerateRandomPassword(picks) == password;
  }
}
