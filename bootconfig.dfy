/** The configuration record that Manager and Scanner import (the shape of
    `etc/conf.py`). It is loaded once and never changed during a run. */
module BootConfig {

  /** A Python dict in insertion order: (key, value) pairs whose keys are distinct. */
  predicate DistinctKeys(d: seq<(string, string)>) {
    forall i, j :: 0 <= i < j < |d| ==> d[i].0 != d[j].0
  }

  type Dict = d: seq<(string, string)> | DistinctKeys(d)

  /** `d.keys()`, in insertion order. */
  function Keys(d: seq<(string, string)>): (ks: seq<string>)
    ensures |ks| == |d|
  {
    seq(|d|, i requires 0 <= i < |d| => d[i].0)
  }

  /** `d.values()`, in insertion order. */
  function Values(d: seq<(string, string)>): (vs: seq<string>)
    ensures |vs| == |d|
  {
    seq(|d|, i requires 0 <= i < |d| => d[i].1)
  }

  /** `d[k]`: the value stored under a key that is present. */
  function Get(d: seq<(string, string)>, k: string): (v: string)
    requires k in Keys(d)
    ensures exists i :: 0 <= i < |d| && d[i] == (k, v)
  {
    if d[0].0 == k then d[0].1
    else
      assert Keys(d)[1..] == Keys(d[1..]);
      var v := Get(d[1..], k);
      assert exists i :: 0 <= i < |d[1..]| && d[1..][i] == (k, v);
      v
  }

  /** In a dict, the value found under the key of entry `i` is that entry's value. */
  lemma {:induction false} GetEntry(d: Dict, i: int)
    requires 0 <= i < |d|
    ensures d[i].0 in Keys(d) && Get(d, d[i].0) == d[i].1
  {
    assert Keys(d)[i] == d[i].0;
    var v := Get(d, d[i].0);
    var j :| 0 <= j < |d| && d[j] == (d[i].0, v);
    assert i == j;
  }

  /** The settings of `etc/conf.py` that the modelled code reads. `timeout` is a
      string there, and Manager concatenates it as it is. */
  datatype Config = Config(
    bootdir: string,     // directory holding one sub-directory per kernel
    bootloader: string,  // "grub2" or "extlinux"
    timeout: string,
    default: string,     // the default kernel's version string
    kernels: Dict)       // kernel version -> kernel command-line options
}
