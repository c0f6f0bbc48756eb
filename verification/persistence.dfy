/** The name of the output file written by save_results in service_enum.py. */
module Persistence {
  import opened Wrappers

  const FilePrefix: string := "service_enum_results_"
  const FileSuffix: string := ".yaml"

  /** The output file for a target address. */
  function OutputFileName(ip: string): (name: string)
    ensures |name| == |FilePrefix| + |ip| + |FileSuffix|
    ensures name[..|FilePrefix|] == FilePrefix && name[|name| - |FileSuffix|..] == FileSuffix
    ensures name[|FilePrefix|..|name| - |FileSuffix|] == ip
  {
    FilePrefix + ip + FileSuffix
  }

  /** The file name written out as the source's format string gives it. */
  lemma OutputFileNameText(ip: string)
    ensures OutputFileName(ip) == "service_enum_results_" + ip + ".yaml"
    ensures OutputFileName("10.0.0.5") == "service_enum_results_10.0.0.5.yaml"
  {
    assert "service_enum_results_" + "10.0.0.5" + ".yaml" == "service_enum_results_10.0.0.5.yaml";
  }

  /** The address an output file belongs to, if the name has the output-file shape. */
  function AddressOfOutputFileName(name: string): Option<string>
  {
    if |FilePrefix| + |FileSuffix| <= |name|
       && name[..|FilePrefix|] == FilePrefix
       && name[|name| - |FileSuffix|..] == FileSuffix
    then Some(name[|FilePrefix|..|name| - |FileSuffix|])
    else None
  }

  /** Each address has its own file: the address can be read back from the name. */
  lemma AddressOfOutputFileNameRoundTrip(ip: string)
    ensures AddressOfOutputFileName(OutputFileName(ip)) == Some(ip)
  {
  }

  /** Every name with the output-file shape is the file of the address read from it. */
  lemma OutputFileNameOfAddress(name: string, ip: string)
    requires AddressOfOutputFileName(name) == Some(ip)
    ensures OutputFileName(ip) == name
  {
    var p := |FilePrefix|;
    var s := |name| - |FileSuffix|;
    assert name == name[..p] + name[p..s] + name[s..];
  }

  /** Two different addresses never share an output file name; one address always reuses its own. */
  lemma OutputFileNameInjective(a: string, b: string)
    ensures OutputFileName(a) == OutputFileName(b) <==> a == b
  {
    AddressOfOutputFileNameRoundTrip(a);
    AddressOfOutputFileNameRoundTrip(b);
  }
}
