/** The upgrade progression levels (`EUpgradeLevel`).
    The enum is declared over `uint8`, so a value of the type is any byte;
    six of the byte values carry a name, ranked 0..5 in declaration order. */
module UpgradeLevel {

  /** A value of type `EUpgradeLevel`: its `uint8` representation. */
  newtype Level = x: int | 0 <= x < 0x100

  /** The six named enumerators, in declaration order. */
  datatype Enumerator = None | Basic | Advanced | Elite | Master | Legend

  /** The lowest and highest named ranks; the steps clamp to these. */
  const MinRank: Level := 0
  const MaxRank: Level := 5

  /** The value an enumerator stands for. */
  function Rank(e: Enumerator): (r: Level)
    ensures MinRank <= r <= MaxRank
  {
    match e
    case None => 0
    case Basic => 1
    case Advanced => 2
    case Elite => 3
    case Master => 4
    case Legend => 5
  }

  /** Whether a byte value is one of the named enumerators. */
  predicate IsNamed(v: Level) {
    MinRank <= v <= MaxRank
  }

  /** The enumerator whose rank is `r`. */
  function FromRank(r: Level): (e: Enumerator)
    requires IsNamed(r)
    ensures Rank(e) == r
  {
    if r == 0 then None
    else if r == 1 then Basic
    else if r == 2 then Advanced
    else if r == 3 then Elite
    else if r == 4 then Master
    else Legend
  }

  /** The enumerators listed in declaration order. */
  function Enumerators(): (s: seq<Enumerator>)
    ensures |s| == 6
    ensures forall i :: 0 <= i < |s| ==> Rank(s[i]) as int == i
  {
    [None, Basic, Advanced, Elite, Master, Legend]
  }

  /** There are exactly six levels: every enumerator is listed once, at the index of its rank. */
  lemma ExactlySixLevels(e: Enumerator)
    ensures e in Enumerators()
    ensures Enumerators()[Rank(e)] == e
  {
  }

  /** `None` is the least and `Legend` the greatest of the ranks. */
  lemma RankBounds(e: Enumerator)
    ensures Rank(None) == MinRank <= Rank(e) <= MaxRank == Rank(Legend)
  {
  }

  /** Rank then FromRank is the identity on the six enumerators; with the
      contract of FromRank this makes the two functions inverse bijections
      between the enumerators and the ranks 0..5. */
  lemma RankRoundTrip(e: Enumerator)
    ensures IsNamed(Rank(e)) && FromRank(Rank(e)) == e
  {
  }

  /** `static_cast<EUpgradeLevel>(v)` of a wider integer: conversion to the
      `uint8` underlying type keeps `v` modulo 2^8. */
  function Cast(v: int): (l: Level)
    ensures (l as int - v) % 0x100 == 0
    ensures 0 <= v < 0x100 ==> l as int == v
  {
    (v % 0x100) as Level
  }
}
