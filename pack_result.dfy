/**
 * NugetPackResult: the outcome of packing one nuspec file.
 */
module PackResults {

  class NugetPackResult {
    const nuspecFile: string
    var success: bool

    constructor (nuspecFile: string, success: bool)
      ensures GetNuspecFile() == nuspecFile && IsSuccess() == success
    {
      this.nuspecFile := nuspecFile;
      this.success := success;
    }

    function GetNuspecFile(): (r: string)
    {
      nuspecFile
    }

    function IsSuccess(): (r: bool)
      reads this
    {
      success
    }

    /** `setSuccess`: only the success flag changes; the nuspec file is final. */
    method SetSuccess(success: bool)
      modifies this`success
      ensures IsSuccess() == success
    {
      this.success := success;
    }
  }
}
