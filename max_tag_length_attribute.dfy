/**
 * MaxTagLengthAttribute: validates that every item of a List<string> is at most
 * MaxLength characters long.
 */
module Validators {
  import opened Wrappers
  import opened Entities
  import opened Decimal
  import opened Objects

  /** What IsValid returns, or the exception it raises. */
  datatype ValidationResult =
    | Success
    | Failure(errorMessage: string)
    | Threw(error: Exception)

  const NotAListMessage := "The field must be a list of strings."

  /** An item that fails the check: longer than maxLength in UTF-16 code units. */
  predicate TooLong(item: Option<string>, maxLength: int) {
    item.Some? && Utf16Length(item.value) > maxLength
  }

  /**
   * The outcome of the item loop over `items`: the first item that is null
   * (reading its Length throws) or too long decides; otherwise Success.
   */
  function CheckItems(items: seq<Option<string>>, maxLength: int, message: string): ValidationResult {
    if items == [] then Success
    else if items[0].None? then Threw(NullReferenceException(NullReferenceMessage))
    else if Utf16Length(items[0].value) > maxLength then Failure(message)
    else CheckItems(items[1..], maxLength, message)
  }

  /** Success exactly when every item is non-null and within the limit (equal length passes). */
  lemma {:induction false} CheckItemsSuccess(items: seq<Option<string>>, maxLength: int, message: string)
    ensures CheckItems(items, maxLength, message) == Success <==>
      forall i :: 0 <= i < |items| ==> items[i].Some? && Utf16Length(items[i].value) <= maxLength
  {
    if items != [] {
      CheckItemsSuccess(items[1..], maxLength, message);
      if items[0].Some? && Utf16Length(items[0].value) <= maxLength {
        forall i | 0 <= i < |items[1..]| ensures items[1..][i] == items[i + 1] { }
      }
    }
  }

  /** The first offending item, when it is too long, decides a Failure with the given message. */
  lemma {:induction false} FirstOffenderFails(items: seq<Option<string>>, maxLength: int, message: string, k: nat)
    requires k < |items| && TooLong(items[k], maxLength)
    requires forall i :: 0 <= i < k ==> items[i].Some?
    ensures CheckItems(items, maxLength, message) == Failure(message)
  {
    if k > 0 {
      assert items[0].Some?;
      if Utf16Length(items[0].value) <= maxLength {
        assert items[1..][k - 1] == items[k];
        assert forall i :: 0 <= i < k - 1 ==> items[1..][i] == items[i + 1];
        FirstOffenderFails(items[1..], maxLength, message, k - 1);
      }
    }
  }

  /** A Failure names an item that is too long with no null item before it. */
  lemma {:induction false} FailureHasOffender(items: seq<Option<string>>, maxLength: int, message: string)
    returns (k: nat)
    requires CheckItems(items, maxLength, message).Failure?
    ensures k < |items| && TooLong(items[k], maxLength)
    ensures forall i :: 0 <= i < k ==> items[i].Some?
    ensures CheckItems(items, maxLength, message).errorMessage == message
  {
    if items[0].Some? && Utf16Length(items[0].value) > maxLength {
      k := 0;
    } else {
      var j := FailureHasOffender(items[1..], maxLength, message);
      k := j + 1;
      assert items[k] == items[1..][j];
      assert forall i :: 1 <= i < k ==> items[i] == items[1..][i - 1];
    }
  }

  /**
   * Failure exactly when some item is longer than maxLength and every item
   * before it is non-null; the failure carries the given message.
   */
  lemma CheckItemsFailure(items: seq<Option<string>>, maxLength: int, message: string)
    ensures CheckItems(items, maxLength, message).Failure? <==>
      exists k :: 0 <= k < |items| && TooLong(items[k], maxLength) &&
        forall i :: 0 <= i < k ==> items[i].Some?
    ensures CheckItems(items, maxLength, message).Failure? ==>
      CheckItems(items, maxLength, message).errorMessage == message
  {
    if CheckItems(items, maxLength, message).Failure? {
      var k := FailureHasOffender(items, maxLength, message);
    }
    if exists k :: 0 <= k < |items| && TooLong(items[k], maxLength) &&
         forall i :: 0 <= i < k ==> items[i].Some? {
      var k :| 0 <= k < |items| && TooLong(items[k], maxLength) &&
        forall i :: 0 <= i < k ==> items[i].Some?;
      FirstOffenderFails(items, maxLength, message, k);
    }
  }

  /** A character outside the Basic Multilingual Plane is two UTF-16 units, so one such tag exceeds a limit of 1. */
  lemma SurrogatePairExceedsOne(message: string)
    ensures Utf16Length("\U{1F600}") == 2
    ensures CheckItems([Some("\U{1F600}")], 1, message) == Failure(message)
  {
    assert "\U{1F600}"[..0] == [];
  }

  class MaxTagLengthAttribute {
    /** Fixed at construction. */
    const MaxLength: int

    constructor (maxLength: int)
      ensures MaxLength == maxLength
    {
      MaxLength := maxLength;
    }

    /** The failure message for the field `displayName`. */
    function FormatErrorMessage(displayName: string): (r: string)
      ensures |r| > 9 + |displayName|
      ensures r[..9] == "Items in " && r[9..9 + |displayName|] == displayName
      ensures r[9 + |displayName|..] == " cannot exceed " + IntToString(MaxLength) + " characters."
    {
      var head := "Items in " + displayName;
      var tail := " cannot exceed " + IntToString(MaxLength) + " characters.";
      assert |"Items in "| == 9;
      assert head[..9] == "Items in " && head[9..] == displayName;
      assert (head + tail)[..|head|] == head && (head + tail)[|head|..] == tail;
      head + tail
    }

    /**
     * IsValid: null is valid; a List<string> is valid when no item is longer
     * than MaxLength, and otherwise fails with FormatErrorMessage; any other
     * object fails with the not-a-list message.
     */
    method IsValid(value: Value, displayName: string) returns (r: ValidationResult)
      ensures value.Null? ==> r == Success
      ensures value.TextList? ==> r == CheckItems(value.items, MaxLength, FormatErrorMessage(displayName))
      ensures !value.Null? && !value.TextList? ==> r == Failure(NotAListMessage)
    {
      if value.Null? {
        return Success;
      }
      if value.TextList? {
        var stringList := value.items;
        var i := 0;
        while i < |stringList|
          invariant 0 <= i <= |stringList|
          invariant CheckItems(stringList[i..], MaxLength, FormatErrorMessage(displayName)) ==
                    CheckItems(stringList, MaxLength, FormatErrorMessage(displayName))
        {
          var item := stringList[i];
          assert stringList[i..][1..] == stringList[i + 1..];
          if item.None? {
            return Threw(NullReferenceException(NullReferenceMessage));
          }
          if Utf16Length(item.value) > MaxLength {
            var errorMessage := FormatErrorMessage(displayName);
            return Failure(errorMessage);
          }
          i := i + 1;
        }
        return Success;
      }
      return Failure(NotAListMessage);
    }
  }
}
