/** The notification trigger rules of app/actions/notifications.ts: when a task,
    an assignment or a project update gives rise to a notification, whom it is
    for, and what it says. */
module Triggers {
  import opened Common
  import opened Model

  const HourMs := 1000 * 60 * 60
  const DueWindowHours := 24

  /** The notification fields that a trigger passes to `createNotification`. */
  datatype Draft = Draft(
    userId: UserId,
    title: string,
    message: string,
    kind: string,
    relatedId: Option<string>,
    relatedType: Option<string>)

  /** `diffHours`: the time until the due date in hours. */
  function DiffHours(due: int, now: int): real {
    (due - now) as real / HourMs as real
  }

  /** `diffHours > 0 && diffHours <= 24`, decided on whole milliseconds. */
  predicate DueSoon(due: int, now: int)
    ensures DueSoon(due, now) <==> 0.0 < DiffHours(due, now) <= DueWindowHours as real
  {
    0 < due - now <= DueWindowHours * HourMs
  }

  /** `Math.ceil(diffHours)` for a due date in the future. */
  function HoursUntil(due: int, now: int): (h: nat)
    requires due > now
    ensures (h - 1) * HourMs < due - now <= h * HourMs
  {
    (due - now + HourMs - 1) / HourMs
  }

  /** A due-soon reminder always announces between 1 and 24 hours. */
  lemma DueSoonHours(due: int, now: int)
    requires DueSoon(due, now)
    ensures 1 <= HoursUntil(due, now) <= DueWindowHours
  {
    var h := HoursUntil(due, now);
    assert (h - 1) * HourMs < DueWindowHours * HourMs;
  }

  function DueMessage(title: string, projectName: string, hours: nat): string {
    "Task \"" + title + "\" in project \"" + projectName + "\" is due in " + NatToString(hours) + " hours."
  }

  /** The reminder's text determines the hour count it announces. */
  lemma DueMessageHours(title: string, projectName: string, h1: nat, h2: nat)
    requires DueMessage(title, projectName, h1) == DueMessage(title, projectName, h2)
    ensures h1 == h2
  {
    var prefix := "Task \"" + title + "\" in project \"" + projectName + "\" is due in ";
    var m1, m2 := DueMessage(title, projectName, h1), DueMessage(title, projectName, h2);
    var s1, s2 := NatToString(h1), NatToString(h2);
    assert m1 == prefix + s1 + " hours." && m2 == prefix + s2 + " hours.";
    assert |s1| == |s2|;
    assert s1 == m1[|prefix|..|prefix| + |s1|];
    assert s2 == m2[|prefix|..|prefix| + |s2|];
    NatToStringInjective(h1, h2);
  }

  /** `createTaskDueNotification` once the task and its project are loaded: a
      reminder for the assignee when the task has a due date less than a day ahead. */
  function DueReminder(task: Task, projectName: string, now: int): (d: Option<Draft>)
    ensures d.Some? <==> task.assigneeId.Some? && task.dueDate.Some? && DueSoon(task.dueDate.value, now)
    ensures d.Some? ==> && d.value.userId == task.assigneeId.value
                        && d.value.kind == "task_due"
                        && d.value.relatedId == Some(task.id)
                        && d.value.relatedType == Some("task")
                        && d.value.message == DueMessage(task.title, projectName, HoursUntil(task.dueDate.value, now))
  {
    if task.assigneeId.Some? && task.dueDate.Some? && DueSoon(task.dueDate.value, now) then
      Some(Draft(task.assigneeId.value, "Task Due Soon",
                 DueMessage(task.title, projectName, HoursUntil(task.dueDate.value, now)),
                 "task_due", Some(task.id), Some("task")))
    else None
  }

  /** `createTaskAssignedNotification`: the assignee hears of the task unless they assigned it themselves. */
  function AssignedNotice(task: Task, projectName: string, assignerId: UserId): (d: Option<Draft>)
    ensures d.Some? <==> task.assigneeId.Some? && task.assigneeId.value != assignerId
    ensures d.Some? ==> && d.value.userId == task.assigneeId.value
                        && d.value.userId != assignerId
                        && d.value.kind == "task_assigned"
                        && d.value.relatedId == Some(task.id)
                        && d.value.relatedType == Some("task")
  {
    if task.assigneeId.Some? && task.assigneeId.value != assignerId then
      Some(Draft(task.assigneeId.value, "Task Assigned",
                 "You have been assigned to task \"" + task.title + "\" in project \"" + projectName + "\".",
                 "task_assigned", Some(task.id), Some("task")))
    else None
  }

  /** `createProjectUpdateNotification`: the project's owner hears of the update. */
  function ProjectUpdateNotice(project: Project, updateMessage: string): (d: Draft)
    ensures d.userId == project.userId
    ensures d.kind == "project_update" && d.relatedId == Some(project.id) && d.relatedType == Some("project")
  {
    Draft(project.userId, "Project Update",
          "Update for project \"" + project.name + "\": " + updateMessage,
          "project_update", Some(project.id), Some("project"))
  }
}
