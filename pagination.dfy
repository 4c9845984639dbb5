/** components/Pagination.tsx: the page control. Its state is the text in
    the page box; its handlers ask the parent for a page (`onPageChange`),
    which is modelled as the `Option<int>` each handler returns. */
module Pagination {
  import opened Wrappers
  import opened Strings

  // ---------------------------------------------------------------------------
  // parseInt with no radix

  /** The longest prefix of decimal digits. */
  function DecimalPrefix(s: string): (d: string)
    ensures |d| <= |s| && d == s[..|d|]
    ensures forall i :: 0 <= i < |d| ==> IsDigit(d[i])
    ensures |d| < |s| ==> !IsDigit(s[|d|])
  {
    if s == [] || !IsDigit(s[0]) then [] else [s[0]] + DecimalPrefix(s[1..])
  }

  predicate IsHexDigit(c: char) {
    IsDigit(c) || 'a' <= c <= 'f' || 'A' <= c <= 'F'
  }

  function HexValue(c: char): (d: nat)
    requires IsHexDigit(c)
    ensures d < 16
  {
    if IsDigit(c) then DigitValue(c)
    else if 'a' <= c <= 'f' then c as int - 'a' as int + 10
    else c as int - 'A' as int + 10
  }

  /** The longest prefix of hexadecimal digits, either case. */
  function HexPrefix(s: string): (d: string)
    ensures |d| <= |s| && d == s[..|d|]
    ensures forall i :: 0 <= i < |d| ==> IsHexDigit(d[i])
    ensures |d| < |s| ==> !IsHexDigit(s[|d|])
  {
    if s == [] || !IsHexDigit(s[0]) then [] else [s[0]] + HexPrefix(s[1..])
  }

  function HexDigitsValue(s: string): nat
    requires forall i :: 0 <= i < |s| ==> IsHexDigit(s[i])
  {
    if s == [] then 0 else HexDigitsValue(s[..|s| - 1]) * 16 + HexValue(s[|s| - 1])
  }

  predicate AllDigits(s: string) {
    forall i :: 0 <= i < |s| ==> IsDigit(s[i])
  }

  /** The digits after the sign: base 16 after a `0x` or `0X` prefix,
      base 10 otherwise; `None` when no digit follows. */
  function ParseUnsigned(u: string): (r: Option<nat>)
    ensures r.Some? ==> u != []
  {
    if |u| >= 2 && u[0] == '0' && (u[1] == 'x' || u[1] == 'X') then
      var h := HexPrefix(u[2..]);
      if h == [] then None else Some(HexDigitsValue(h))
    else
      var d := DecimalPrefix(u);
      if d == [] then None else Some(DigitsValue(d))
  }

  /** `parseInt(s)`: leading white space and one sign are skipped, `0x` or
      `0X` switches to base 16, and the longest run of digits that follows
      is read; `None` is `NaN`, when that run is empty. */
  function ParseInt(s: string): (r: Option<int>)
    ensures s == [] || AllWhitespace(s) ==> r.None?
  {
    var t := TrimStart(s);
    if |t| > 0 && (t[0] == '-' || t[0] == '+') then
      match ParseUnsigned(t[1..])
      case None => None
      case Some(v) => Some(if t[0] == '-' then -(v as int) else v)
    else
      match ParseUnsigned(t)
      case None => None
      case Some(v) => Some(v)
  }

  /** A string that does not start with white space is its own
      `trimStart`. */
  lemma TrimStartKeeps(s: string)
    requires s != [] && !IsWhitespace(s[0])
    ensures TrimStart(s) == s
  {
    assert SkipWhitespace(s, 0) == 0;
  }

  /** A string that starts with `n` decimal digits, not followed by another
      digit and not forming the prefix `0x`, reads as the value of those
      digits. */
  lemma ParseDecimalPrefix(s: string, n: nat)
    requires 0 < n <= |s| && AllDigits(s[..n]) && (n < |s| ==> !IsDigit(s[n]))
    requires n == 1 && n < |s| ==> s[0] != '0' || (s[1] != 'x' && s[1] != 'X')
    ensures ParseInt(s) == Some(DigitsValue(s[..n]))
  {
    assert IsDigit(s[..n][0]);
    TrimStartKeeps(s);
    ParseUnsignedDecimal(s, n);
  }

  /** The unsigned part of `n` decimal digits followed by a non-digit. */
  lemma ParseUnsignedDecimal(u: string, n: nat)
    requires 0 < n <= |u| && AllDigits(u[..n]) && (n < |u| ==> !IsDigit(u[n]))
    requires n == 1 && n < |u| ==> u[0] != '0' || (u[1] != 'x' && u[1] != 'X')
    ensures ParseUnsigned(u) == Some(DigitsValue(u[..n]))
  {
    if n >= 2 {
      assert IsDigit(u[..n][1]);
    }
    DecimalPrefixIs(u, n);
  }

  /** The decimal prefix is the run of digits up to the first non-digit. */
  lemma {:induction false} DecimalPrefixIs(s: string, n: nat)
    requires n <= |s| && AllDigits(s[..n]) && (n < |s| ==> !IsDigit(s[n]))
    ensures DecimalPrefix(s) == s[..n]
  {
    if n > 0 {
      assert IsDigit(s[..n][0]);
      assert s[1..][..n - 1] == s[..n][1..];
      DecimalPrefixIs(s[1..], n - 1);
      assert s[..n] == [s[0]] + s[1..][..n - 1];
    }
  }

  /** A non-empty string of decimal digits reads as its value. */
  lemma ParseDigits(s: string)
    requires s != [] && AllDigits(s)
    ensures ParseInt(s) == Some(DigitsValue(s))
  {
    assert s[..|s|] == s;
    ParseDecimalPrefix(s, |s|);
  }

  /** The text the box shows for a page reads back as that page. */
  lemma ParseRenderedPage(n: nat)
    ensures ParseInt(NatToString(n)) == Some(n)
    ensures ParseInt(IntToString(n)) == Some(n)
  {
    ParseDigits(NatToString(n));
    DigitsValueOfNatToString(n);
  }

  /** The hexadecimal prefix is the run of hex digits up to the first
      character that is not one. */
  lemma {:induction false} HexPrefixIs(s: string, n: nat)
    requires n <= |s| && (forall i :: 0 <= i < n ==> IsHexDigit(s[i])) && (n < |s| ==> !IsHexDigit(s[n]))
    ensures HexPrefix(s) == s[..n]
  {
    if n > 0 {
      HexPrefixIs(s[1..], n - 1);
      assert s[..n] == [s[0]] + s[1..][..n - 1];
    }
  }

  /** After a `0x` or `0X` prefix the `n` hex digits that follow are read
      in base 16, up to the first character that is not a hex digit. */
  lemma ParseHonoursHexPrefix(s: string, n: nat)
    requires |s| >= 2 && s[0] == '0' && (s[1] == 'x' || s[1] == 'X')
    requires 0 < n <= |s| - 2 && (forall i :: 2 <= i < n + 2 ==> IsHexDigit(s[i]))
    requires n + 2 < |s| ==> !IsHexDigit(s[n + 2])
    ensures ParseInt(s) == Some(HexDigitsValue(s[2..n + 2]))
  {
    HexPrefixIs(s[2..], n);
    assert s[2..][..n] == s[2..n + 2];
    TrimStartKeeps(s);
  }

  /** Text that starts with anything but white space, a sign or a digit
      is `NaN`. */
  lemma ParseRejectsLetters(s: string)
    requires s != [] && !IsWhitespace(s[0]) && !IsDigit(s[0]) && s[0] != '-' && s[0] != '+'
    ensures ParseInt(s) == None
  {
    TrimStartKeeps(s);
  }

  /** A minus sign negates the digits that follow it. */
  lemma ParseMinus(s: string, n: nat)
    requires |s| > 1 && s[0] == '-'
    requires 0 < n < |s| && AllDigits(s[1..n + 1]) && (n + 1 < |s| ==> !IsDigit(s[n + 1]))
    requires n == 1 && n + 1 < |s| ==> s[1] != '0' || (s[2] != 'x' && s[2] != 'X')
    ensures ParseInt(s) == Some(-(DigitsValue(s[1..n + 1]) as int))
  {
    var u := s[1..];
    assert u[..n] == s[1..n + 1];
    ParseUnsignedDecimal(u, n);
    ParseNegative(s);
  }

  /** After a leading minus sign the unsigned part is read and negated. */
  lemma ParseNegative(s: string)
    requires |s| > 1 && s[0] == '-'
    ensures ParseUnsigned(s[1..]).Some? ==> ParseInt(s) == Some(-(ParseUnsigned(s[1..]).value as int))
  {
    TrimStartKeeps(s);
  }

  // ---------------------------------------------------------------------------
  // The component

  predicate InRange(page: int, totalPages: int) {
    1 <= page <= totalPages
  }

  class Pager {
    /** The props. */
    var currentPage: int
    var totalPages: int
    /** `inputPage`, the text in the page box. */
    var inputPage: string

    constructor(currentPage: int, totalPages: int)
      ensures this.currentPage == currentPage && this.totalPages == totalPages
      ensures inputPage == IntToString(currentPage)
    {
      this.currentPage := currentPage;
      this.totalPages := totalPages;
      inputPage := IntToString(currentPage);
    }

    /** `if (totalPages <= 1) return null`: the control shows only when
      there is a second page to go to. */
    predicate Renders()
      reads this
      ensures Renders() <==> InRange(2, totalPages)
    {
      totalPages > 1
    }

    /** `handlePrev`. */
    method Prev() returns (request: Option<int>)
      ensures request == (if currentPage > 1 then Some(currentPage - 1) else None)
      ensures request.Some? && currentPage <= totalPages ==> InRange(request.value, totalPages)
    {
      request := None;
      if currentPage > 1 {
        request := Some(currentPage - 1);
      }
    }

    /** `handleNext`. */
    method Next() returns (request: Option<int>)
      ensures request == (if currentPage < totalPages then Some(currentPage + 1) else None)
      ensures request.Some? && 1 <= currentPage ==> InRange(request.value, totalPages)
    {
      request := None;
      if currentPage < totalPages {
        request := Some(currentPage + 1);
      }
    }

    /** `handleInputChange`. */
    method Type(text: string)
      modifies this
      ensures inputPage == text
      ensures currentPage == old(currentPage) && totalPages == old(totalPages)
    {
      inputPage := text;
    }

    /** `handleInputKeyDown`: Enter asks for the typed page when it parses
      to one within [1, totalPages]; otherwise the box is reset to the
      current page. Other keys do nothing. */
    method KeyDown(key: string) returns (request: Option<int>)
      modifies this
      ensures currentPage == old(currentPage) && totalPages == old(totalPages)
      ensures request.Some? ==> InRange(request.value, totalPages)
      ensures key != "Enter" ==> request.None? && inputPage == old(inputPage)
      ensures key == "Enter" ==>
        var page := ParseInt(old(inputPage));
        if page.Some? && InRange(page.value, totalPages)
        then request == page && inputPage == old(inputPage)
        else request.None? && inputPage == IntToString(currentPage)
    {
      request := None;
      if key == "Enter" {
        var page := ParseInt(inputPage);
        if page.Some? && page.value >= 1 && page.value <= totalPages {
          request := page;
        } else {
          inputPage := IntToString(currentPage);
        }
      }
    }

    /** `onBlur`. */
    method Blur()
      modifies this
      ensures inputPage == IntToString(currentPage)
      ensures currentPage == old(currentPage) && totalPages == old(totalPages)
    {
      inputPage := IntToString(currentPage);
    }

    /** New props from the parent; the effect on `[currentPage]` resets the
      box only when the current page changed. */
    method Rerender(newCurrent: int, newTotal: int)
      modifies this
      ensures currentPage == newCurrent && totalPages == newTotal
      ensures inputPage == if newCurrent != old(currentPage) then IntToString(newCurrent) else old(inputPage)
    {
      if newCurrent != currentPage {
        inputPage := IntToString(newCurrent);
      }
      currentPage := newCurrent;
      totalPages := newTotal;
    }
  }

  /** Pressing Enter on the text the box was reset to asks for the current
      page, whenever that page is in range. */
  method EnterAfterBlur(p: Pager) returns (request: Option<int>)
    modifies p
    ensures InRange(p.currentPage, p.totalPages) ==> request == Some(p.currentPage)
  {
    p.Blur();
    if p.currentPage >= 1 {
      ParseRenderedPage(p.currentPage);
    }
    request := p.KeyDown("Enter");
  }
}
