/**
 * The service's copy of the chain: token records, what the chain answers about a
 * token, and how a record is derived from it.
 */
module TokenRecords {
  import opened Prelude

  datatype WarehouseReceipt = WarehouseReceipt(
    id: string, commodity: string, quantity: real, unit: string, gradeCode: string,
    custodian: string, depositor: string, issuedAt: real, expiresAt: real)

  datatype TokenRecord = TokenRecord(
    tokenId: string, receipt: WarehouseReceipt, owner: string,
    mintedAt: Option<real>, metadataUri: Option<string>)

  datatype ChainMetadata = ChainMetadata(
    tokenId: string, commodity: string, grade: string, bagCount: u32, weightPerBagKg: u32, totalWeightKg: u32,
    warehouseId: string, custodian: string, depositTs: u64, isLocked: bool, parentTokenId: Option<string>)

  // A thrown value: whether it is an Error, and its message or its text.
  datatype Thrown = Thrown(isError: bool, message: string)

  datatype Answer<+T> = Returned(value: T) | Failed(err: Thrown)

  // A fixed view of the chain.  Millis is the conversion of a deposit time to the
  // number the service stores; all that matters is that it is a function.
  datatype Chain = Chain(
    owner: string -> Answer<string>,
    token: string -> Answer<ChainMetadata>,
    millis: u64 -> real)

  // ----- Not-found errors ----------------------------------------------------------

  predicate Includes(s: string, part: string) {
    part <= s || (s != [] && Includes(s[1..], part))
  }

  predicate IsTokenNotFoundError(err: Thrown) {
    && err.isError
    && (|| Includes(err.message, "TokenNotFound")
        || Includes(err.message, "Error(Contract, #1)")
        || Includes(err.message, "token not found"))
  }

  lemma {:induction false} FindPart(s: string, part: string) returns (i: nat)
    requires Includes(s, part)
    ensures i + |part| <= |s| && s[i..i + |part|] == part
  {
    if part <= s {
      i := 0;
    } else {
      var rest := FindPart(s[1..], part);
      i := rest + 1;
      assert s[1..][rest..rest + |part|] == s[i..i + |part|];
    }
  }

  lemma {:induction false} PartAt(s: string, part: string, i: nat)
    requires i + |part| <= |s| && s[i..i + |part|] == part
    ensures Includes(s, part)
  {
    if i == 0 {
      assert s[..|part|] == part;
    } else {
      assert s[1..][i - 1..i - 1 + |part|] == s[i..i + |part|];
      PartAt(s[1..], part, i - 1);
    }
  }

  // A message reads as "not found" when it is an Error's and has one of three texts
  // in it, wherever it stands ...
  lemma ReadsAsNotFound(isError: bool, pre: string, text: string, post: string)
    requires text == "TokenNotFound" || text == "Error(Contract, #1)" || text == "token not found"
    ensures IsTokenNotFoundError(Thrown(isError, pre + text + post)) <==> isError
  {
    hide Includes;
    var message := pre + text + post;
    assert message[|pre|..|pre| + |text|] == text;
    PartAt(message, text, |pre|);
  }

  // ... and only then.
  lemma NotFoundHasText(err: Thrown) returns (pre: string, text: string, post: string)
    requires IsTokenNotFoundError(err)
    ensures err.isError && err.message == pre + text + post
    ensures text == "TokenNotFound" || text == "Error(Contract, #1)" || text == "token not found"
  {
    hide Includes;
    var m := err.message;
    text := if Includes(m, "TokenNotFound") then "TokenNotFound"
            else if Includes(m, "Error(Contract, #1)") then "Error(Contract, #1)" else "token not found";
    var i := FindPart(m, text);
    pre, post := m[..i], m[i + |text|..];
  }

  lemma PartLetter(s: string, part: string, k: nat)
    requires Includes(s, part) && k < |part|
    ensures part[k] in s
  {
    var i := FindPart(s, part);
    assert s[i..i + |part|][k] == s[i + k];
  }

  // Where a part cannot straddle two strings, it is in one of them.
  lemma JoinIncludes(s: string, t: string, part: string)
    requires s != "" && t != "" && part != ""
    requires s[|s| - 1] !in part[..|part| - 1] || t[0] !in part[1..]
    ensures Includes(s + t, part) <==> Includes(s, part) || Includes(t, part)
  {
    if Includes(s, part) {
      var i := FindPart(s, part);
      assert (s + t)[i..i + |part|] == s[i..i + |part|];
      PartAt(s + t, part, i);
    }
    if Includes(t, part) {
      var i := FindPart(t, part);
      assert (s + t)[|s| + i..|s| + i + |part|] == t[i..i + |part|];
      PartAt(s + t, part, |s| + i);
    }
    if Includes(s + t, part) {
      var i := FindPart(s + t, part);
      WithinOne(s, t, part, i);
    }
  }

  lemma Straddles(s: string, t: string, part: string, i: nat)
    requires i < |s| < i + |part| <= |s + t| && (s + t)[i..i + |part|] == part
    ensures s[|s| - 1] in part[..|part| - 1] && t[0] in part[1..]
  {
    var k := |s| - i;
    assert part[..|part| - 1][k - 1] == (s + t)[i..i + |part|][k - 1] == s[|s| - 1];
    assert part[1..][k - 1] == (s + t)[i..i + |part|][k] == t[0];
  }

  lemma WithinOne(s: string, t: string, part: string, i: nat)
    requires s != "" && t != "" && part != ""
    requires s[|s| - 1] !in part[..|part| - 1] || t[0] !in part[1..]
    requires i + |part| <= |s + t| && (s + t)[i..i + |part|] == part
    ensures Includes(s, part) || Includes(t, part)
  {
    if i + |part| <= |s| {
      assert s[i..i + |part|] == part;
      PartAt(s, part, i);
    } else if |s| <= i {
      assert t[i - |s|..i - |s| + |part|] == part;
      PartAt(t, part, i - |s|);
    } else {
      Straddles(s, t, part, i);
    }
  }

  predicate Numeric(code: string) {
    code != "" && forall k :: 0 <= k < |code| ==> '0' <= code[k] <= '9'
  }

  // How the host words the failure of a contract call.
  function Quote(code: string): string {
    "Error(Contract, #" + code + ")"
  }

  lemma SurroundedIncludes(pre: string, code: string, post: string, part: string)
    requires part != "" && 'E' !in part[1..] && ')' !in part[..|part| - 1]
    ensures Includes(pre + Quote(code) + post, part) <==>
              Includes(pre, part) || Includes(Quote(code), part) || Includes(post, part)
  {
    var q := Quote(code);
    assert q[0] == 'E' && q[|q| - 1] == ')';
    assert pre + q + post == pre + (q + post);
    hide Quote;
    if post == "" {
      assert q + post == q;
    } else {
      JoinIncludes(q, post, part);
    }
    if pre == "" {
      assert pre + (q + post) == q + post;
    } else {
      JoinIncludes(pre, q + post, part);
    }
  }

  lemma QuoteLetters(code: string)
    requires Numeric(code)
    ensures 'T' !in Quote(code) && 'k' !in Quote(code)
  {
    assert 'T' !in "Error(Contract, #" && 'k' !in "Error(Contract, #";
  }

  // A numeric code is all there is between the hash and the bracket.
  lemma QuoteIncludesOne(code: string)
    requires Numeric(code)
    ensures Includes(Quote(code), "Error(Contract, #1)") <==> code == "1"
  {
    var opening, q := "Error(Contract, #", Quote(code);
    if code == "1" {
      assert q == "Error(Contract, #1)";
    }
    hide Includes;
    if Includes(q, "Error(Contract, #1)") {
      var i := FindPart(q, "Error(Contract, #1)");
      assert q[i] == 'E' by {
        assert q[i..i + 19][0] == q[i];
      }
      assert i < 17 ==> q[i] == opening[i];
      assert i == 0;
      assert q[0..19][17] == q[17] == code[0] && q[0..19][18] == q[18];
      assert |code| == 1;
      assert code == [code[0]];
    }
  }

  // An error that quotes a contract error code counts as "not found" exactly for
  // code 1, which the contracts give to a repeated initialisation, unless the text
  // around the quotation reads as "not found" by itself.  A missing token is code 3.
  lemma OnlyCodeOneIsNotFound(pre: string, code: string, post: string)
    requires Numeric(code)
    ensures IsTokenNotFoundError(Thrown(true, pre + Quote(code) + post)) <==>
              || code == "1"
              || IsTokenNotFoundError(Thrown(true, pre)) || IsTokenNotFoundError(Thrown(true, post))
  {
    hide Quote, Includes, Numeric;
    SurroundedIncludes(pre, code, post, "TokenNotFound");
    SurroundedIncludes(pre, code, post, "Error(Contract, #1)");
    SurroundedIncludes(pre, code, post, "token not found");
    QuoteIncludesOne(code);
    QuoteHasNoName(code);
  }

  lemma NameLetters(s: string)
    ensures Includes(s, "TokenNotFound") ==> 'T' in s
    ensures Includes(s, "token not found") ==> 'k' in s
  {
    hide Includes;
    if Includes(s, "TokenNotFound") {
      PartLetter(s, "TokenNotFound", 0);
    }
    if Includes(s, "token not found") {
      PartLetter(s, "token not found", 2);
    }
  }

  // What reads as "not found" holds one of three letters.
  lemma NotFoundLetters(s: string)
    ensures IsTokenNotFoundError(Thrown(true, s)) ==> 'T' in s || 'k' in s || '#' in s
  {
    hide Includes;
    NameLetters(s);
    if Includes(s, "Error(Contract, #1)") {
      PartLetter(s, "Error(Contract, #1)", 16);
    }
  }

  lemma QuoteHasNoName(code: string)
    requires Numeric(code)
    ensures !Includes(Quote(code), "TokenNotFound") && !Includes(Quote(code), "token not found")
  {
    hide Includes, Quote, Numeric;
    QuoteLetters(code);
    NameLetters(Quote(code));
  }

  // ----- From chain metadata to a receipt --------------------------------------------

  function MapMetadataToReceipt(chain: Chain, tokenId: string, meta: ChainMetadata): WarehouseReceipt {
    WarehouseReceipt(tokenId, meta.commodity, meta.totalWeightKg as real, "kg", meta.grade, meta.custodian,
                     meta.warehouseId, chain.millis(meta.depositTs), 0.0)
  }

  // Field by field, as the service compares; on these fields it is equality.
  predicate ReceiptsEqual(a: WarehouseReceipt, b: WarehouseReceipt)
    ensures ReceiptsEqual(a, b) <==> a == b
  {
    && a.id == b.id && a.commodity == b.commodity && a.quantity == b.quantity && a.unit == b.unit
    && a.gradeCode == b.gradeCode && a.custodian == b.custodian && a.depositor == b.depositor
    && a.issuedAt == b.issuedAt && a.expiresAt == b.expiresAt
  }
}
