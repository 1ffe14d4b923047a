/**
 * NugetRestoreResult: the outcome of restoring one project.
 */
module RestoreResults {

  class NugetRestoreResult {
    const projectPath: string
    var success: bool

    constructor (projectPath: string, success: bool)
      ensures GetProjectPath() == projectPath && IsSuccess() == success
    {
      this.projectPath := projectPath;
      this.success := success;
    }

    function GetProjectPath(): (r: string)
    {
      projectPath
    }

    function IsSuccess(): (r: bool)
      reads this
    {
      success
    }

    /** `setSuccess`: only the success flag changes; the project path is final. */
    method SetSuccess(success: bool)
      modifies this`success
      ensures IsSuccess() == success
    {
      this.success := success;
    }
  }
}
